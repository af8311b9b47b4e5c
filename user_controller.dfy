/** The profile logic: the completion score, the profile and avatar updates, the password
    change checks, and the day statistics with today's water. */
module UserController {
  import opened Common
  import opened Js
  import opened DayClock
  import opened UserModel
  import opened WaterController

  // ---------------------------------------------------------------------------
  // Profile completion

  /** `startOfDay`: local midnight, local time running `offset` ms ahead of UTC. */
  function StartOfDay(t: int, offset: int): (r: int)
    ensures (r + offset) % MsPerDay == 0
    ensures r <= t < r + MsPerDay
    ensures StartOfLocalDay(r, offset) == r
  {
    StartOfLocalDayIdempotent(t, offset);
    StartOfLocalDay(t, offset)
  }

  /** The fields whose truthiness counts towards completion, in the handler's order. */
  const CompletionFields: seq<string> :=
    ["age", "height", "weight", "dailyCalorieGoal", "dailyWaterGoal", "avatarUrl", "theme"]

  /** The notification flags that count when they are defined. */
  const NotificationFlags: seq<string> := ["push", "email", "reminders"]

  /** The number of `keys` whose value in `doc` is truthy. */
  function CountTruthy(doc: Document, keys: seq<string>): (n: nat)
    ensures n <= |keys|
  {
    if keys == [] then 0
    else CountTruthy(doc, keys[..|keys| - 1]) + (if Truthy(Get(doc, keys[|keys| - 1])) then 1 else 0)
  }

  /** The number of `keys` whose value in `fields` is not undefined. */
  function CountDefined(fields: map<string, JsValue>, keys: seq<string>): (n: nat)
    ensures n <= |keys|
  {
    if keys == [] then 0
    else CountDefined(fields, keys[..|keys| - 1]) + (if Get(fields, keys[|keys| - 1]) != Undefined then 1 else 0)
  }

  /** The counted entries: truthy fields, plus defined flags when `notifications` is an object. */
  function CompletedFields(user: Document): (n: nat)
    ensures n <= 10
  {
    var notifications := Get(user, "notifications");
    CountTruthy(user, CompletionFields)
      + (if notifications.Obj? then CountDefined(notifications.fields, NotificationFlags) else 0)
  }

  /** `Math.round(completed / 10 * 100)`: ten points per counted entry, from 0 to 100. */
  function ProfileCompletion(user: Document): (r: int)
    ensures r == 10 * CompletedFields(user)
    ensures 0 <= r <= 100
  {
    var c := CompletedFields(user);
    assert c as real / 10.0 * 100.0 == (10 * c) as real;
    RoundOfInteger(10 * c);
    Round(c as real / 10.0 * 100.0)
  }

  /** `calculateProfileCompletion`, with its counting loop. */
  method CalculateProfileCompletion(user: Document) returns (r: int)
    ensures r == ProfileCompletion(user)
  {
    var completed := 0;
    for k := 0 to |CompletionFields|
      invariant completed == CountTruthy(user, CompletionFields[..k])
    {
      assert CompletionFields[..k + 1][..k] == CompletionFields[..k];
      if Truthy(Get(user, CompletionFields[k])) {
        completed := completed + 1;
      }
    }
    assert CompletionFields[..|CompletionFields|] == CompletionFields;
    var notifications := Get(user, "notifications");
    if notifications.Obj? {
      var flags := notifications.fields;
      CountDefinedFlags(flags);
      if Get(flags, "push") != Undefined { completed := completed + 1; }
      if Get(flags, "email") != Undefined { completed := completed + 1; }
      if Get(flags, "reminders") != Undefined { completed := completed + 1; }
    }
    r := Round(completed as real / 10.0 * 100.0);
  }

  lemma {:induction false} CountTruthyMonotone(d1: Document, d2: Document, keys: seq<string>)
    requires forall i :: 0 <= i < |keys| && Truthy(Get(d1, keys[i])) ==> Truthy(Get(d2, keys[i]))
    ensures CountTruthy(d1, keys) <= CountTruthy(d2, keys)
  {
    if keys != [] {
      CountTruthyMonotone(d1, d2, keys[..|keys| - 1]);
    }
  }

  lemma {:induction false} CountDefinedMonotone(f1: map<string, JsValue>, f2: map<string, JsValue>, keys: seq<string>)
    requires forall i :: 0 <= i < |keys| && Get(f1, keys[i]) != Undefined ==> Get(f2, keys[i]) != Undefined
    ensures CountDefined(f1, keys) <= CountDefined(f2, keys)
  {
    if keys != [] {
      CountDefinedMonotone(f1, f2, keys[..|keys| - 1]);
    }
  }

  /** A record in which every counted field that was truthy stays truthy, and every defined
      notification flag stays defined, scores at least as much. */
  lemma ProfileCompletionMonotone(d1: Document, d2: Document)
    requires forall i :: 0 <= i < |CompletionFields| && Truthy(Get(d1, CompletionFields[i])) ==> Truthy(Get(d2, CompletionFields[i]))
    requires Get(d1, "notifications").Obj? ==> Get(d2, "notifications").Obj?
    requires Get(d1, "notifications").Obj? ==>
      forall i :: 0 <= i < |NotificationFlags| && Get(Get(d1, "notifications").fields, NotificationFlags[i]) != Undefined ==>
        Get(Get(d2, "notifications").fields, NotificationFlags[i]) != Undefined
    ensures ProfileCompletion(d1) <= ProfileCompletion(d2)
  {
    CountTruthyMonotone(d1, d2, CompletionFields);
    if Get(d1, "notifications").Obj? {
      CountDefinedMonotone(Get(d1, "notifications").fields, Get(d2, "notifications").fields, NotificationFlags);
    }
  }

  /** Making one counted field truthy never lowers the score. */
  lemma SettingFieldNeverLowers(user: Document, i: nat, v: JsValue)
    requires i < |CompletionFields| && Truthy(v)
    ensures ProfileCompletion(user) <= ProfileCompletion(user[CompletionFields[i] := v])
  {
    var d2 := user[CompletionFields[i] := v];
    assert "notifications" != CompletionFields[i];
    assert Get(d2, "notifications") == Get(user, "notifications");
    ProfileCompletionMonotone(user, d2);
  }

  /** The seven counted fields one by one. */
  lemma CountTruthyFields(d: Document)
    ensures CountTruthy(d, CompletionFields)
         == (if Truthy(Get(d, "age")) then 1 else 0) + (if Truthy(Get(d, "height")) then 1 else 0)
          + (if Truthy(Get(d, "weight")) then 1 else 0) + (if Truthy(Get(d, "dailyCalorieGoal")) then 1 else 0)
          + (if Truthy(Get(d, "dailyWaterGoal")) then 1 else 0) + (if Truthy(Get(d, "avatarUrl")) then 1 else 0)
          + (if Truthy(Get(d, "theme")) then 1 else 0)
  {
    var f := CompletionFields;
    assert f[..1][..0] == [];
    assert CountTruthy(d, f[..1]) == (if Truthy(Get(d, "age")) then 1 else 0);
    assert f[..2][..1] == f[..1];
    assert CountTruthy(d, f[..2]) == CountTruthy(d, f[..1]) + (if Truthy(Get(d, "height")) then 1 else 0);
    assert f[..3][..2] == f[..2];
    assert CountTruthy(d, f[..3]) == CountTruthy(d, f[..2]) + (if Truthy(Get(d, "weight")) then 1 else 0);
    assert f[..4][..3] == f[..3];
    assert CountTruthy(d, f[..4]) == CountTruthy(d, f[..3]) + (if Truthy(Get(d, "dailyCalorieGoal")) then 1 else 0);
    assert f[..5][..4] == f[..4];
    assert CountTruthy(d, f[..5]) == CountTruthy(d, f[..4]) + (if Truthy(Get(d, "dailyWaterGoal")) then 1 else 0);
    assert f[..6][..5] == f[..5];
    assert CountTruthy(d, f[..6]) == CountTruthy(d, f[..5]) + (if Truthy(Get(d, "avatarUrl")) then 1 else 0);
    assert f[..7][..6] == f[..6];
    assert f[..7] == f;
  }

  /** The three notification flags one by one. */
  lemma CountDefinedFlags(flags: map<string, JsValue>)
    ensures CountDefined(flags, NotificationFlags)
         == (if Get(flags, "push") != Undefined then 1 else 0) + (if Get(flags, "email") != Undefined then 1 else 0)
          + (if Get(flags, "reminders") != Undefined then 1 else 0)
  {
    var f := NotificationFlags;
    assert f[..1][..0] == [];
    assert CountDefined(flags, f[..1]) == (if Get(flags, "push") != Undefined then 1 else 0);
    assert f[..2][..1] == f[..1];
    assert CountDefined(flags, f[..2]) == CountDefined(flags, f[..1]) + (if Get(flags, "email") != Undefined then 1 else 0);
    assert f[..3][..2] == f[..2];
    assert f[..3] == f;
  }

  /** A user as the schema first stores it scores 60: the two goals, the theme and the three
      notification flags. */
  lemma NewUserCompletion(name: string, email: string)
    ensures ProfileCompletion(ToDocument(NewUser(name, email))) == 60
  {
    NewUserAbsentPaths(name, email);
    NewUserDefaults(name, email);
    var d := ToDocument(NewUser(name, email));
    CountTruthyFields(d);
    CountDefinedFlags(Get(d, "notifications").fields);
  }

  // ---------------------------------------------------------------------------
  // Profile update validation

  datatype ProfileError =
    | Unauthorized
    | NotANumber(key: string)
    | NotPositive(key: string)
    | BadTheme
    | NoValidFields
    | BadAvatar
    | UserNotFound
    | UserMissing          // the handler dereferences a user that is not there and fails
    | PasswordsRequired
    | PasswordTooShort
    | PasswordUnchanged
    | NoPasswordSet
    | WrongOldPassword

  /** The numeric fields an update may set, in the handler's order. */
  const NumericFields: seq<string> := ["age", "height", "weight", "dailyCalorieGoal", "dailyWaterGoal"]

  /** The keys an update may carry. */
  const UpdatableKeys: set<string> :=
    {"age", "height", "weight", "dailyCalorieGoal", "dailyWaterGoal", "theme", "notifications"}

  /** An absent value, or one that `Number` turns into a number that is not negative. */
  predicate NumericOk(v: JsValue) {
    v == Undefined || (ToNumber(v).Num? && ToNumber(v).n >= 0.0)
  }

  /** The complaint about a numeric field that is not ok: NaN first, then a negative number. */
  function NumericError(key: string, v: JsValue): ProfileError {
    if ToNumber(v).NaN? then NotANumber(key) else NotPositive(key)
  }

  /** The position of the first key in `keys` whose value is not ok, or `|keys|`. */
  function FirstBadIndex(body: Document, keys: seq<string>): (p: nat)
    ensures p <= |keys|
    ensures forall j :: 0 <= j < p ==> NumericOk(Get(body, keys[j]))
    ensures p < |keys| ==> !NumericOk(Get(body, keys[p]))
  {
    if keys == [] then 0
    else
      var p := FirstBadIndex(body, keys[..|keys| - 1]);
      if p < |keys| - 1 then p
      else if !NumericOk(Get(body, keys[|keys| - 1])) then |keys| - 1
      else |keys|
  }

  /** The numeric part of the update loop over `keys`: the first failing key's complaint, or
      each defined key mapped to its number. */
  function CheckNumeric(body: Document, keys: seq<string>): (r: Result<Document, ProfileError>)
    ensures r.Err? <==> FirstBadIndex(body, keys) < |keys|
    ensures r.Err? ==>
      var p := FirstBadIndex(body, keys); r.error == NumericError(keys[p], Get(body, keys[p]))
    ensures r.Ok? ==> forall k :: k in r.value <==> k in keys && Get(body, k) != Undefined
    ensures r.Ok? ==> forall k :: k in r.value ==>
      r.value[k] == ToNumber(Get(body, k)) && r.value[k].Num? && r.value[k].n >= 0.0
  {
    if keys == [] then Ok(map[])
    else
      var init := keys[..|keys| - 1];
      var key := keys[|keys| - 1];
      assert forall k :: k in keys <==> k in init || k == key;
      match CheckNumeric(body, init)
      case Err(e) => Err(e)
      case Ok(updates) =>
        var v := Get(body, key);
        if v == Undefined then Ok(updates)
        else if !NumericOk(v) then Err(NumericError(key, v))
        else Ok(updates[key := ToNumber(v)])
  }

  /** A notifications object with each missing flag filled with true. */
  function FilledNotifications(flags: map<string, JsValue>): (r: JsValue)
    ensures r.Obj? && r.fields.Keys == {"push", "email", "reminders"}
    ensures forall k :: k in r.fields ==> r.fields[k] == (if Get(flags, k) != Undefined then Get(flags, k) else Bool(true))
  {
    Obj(map k | k in {"push", "email", "reminders"} :: if Get(flags, k) != Undefined then Get(flags, k) else Bool(true))
  }

  /** The theme and notifications part of the update, after the numeric fields gave
      `numbers`, and the empty-update check. */
  function ThemeAndNotifications(body: Document, numbers: Document): (r: Result<Document, ProfileError>)
    requires "theme" !in numbers && "notifications" !in numbers
    ensures r == Err(BadTheme) <==> Get(body, "theme") != Undefined && Get(body, "theme") !in {Str("light"), Str("dark")}
    ensures r == Err(NoValidFields) <==>
      numbers == map[] && Get(body, "theme") == Undefined && !Get(body, "notifications").Obj?
    ensures r.Ok? || r.error in {BadTheme, NoValidFields}
    ensures r.Ok? ==> r.value.Keys != {}
    ensures r.Ok? ==> forall k :: k in numbers ==> k in r.value && r.value[k] == numbers[k]
    ensures r.Ok? ==> forall k :: k in r.value ==> k in numbers || k == "theme" || k == "notifications"
    ensures r.Ok? ==> ("theme" in r.value <==> Get(body, "theme") != Undefined)
    ensures r.Ok? && "theme" in r.value ==> r.value["theme"] == Get(body, "theme") && r.value["theme"] in {Str("light"), Str("dark")}
    ensures r.Ok? ==> ("notifications" in r.value <==> Get(body, "notifications").Obj?)
    ensures r.Ok? && "notifications" in r.value ==>
      r.value["notifications"] == FilledNotifications(Get(body, "notifications").fields)
  {
    var theme := Get(body, "theme");
    if theme != Undefined && theme !in {Str("light"), Str("dark")} then Err(BadTheme)
    else
      var withTheme := if theme != Undefined then numbers["theme" := theme] else numbers;
      var notifications := Get(body, "notifications");
      var updates :=
        if notifications.Obj? then withTheme["notifications" := FilledNotifications(notifications.fields)]
        else withTheme;
      if updates.Keys == {} then
        assert numbers.Keys == {};
        Err(NoValidFields)
      else
        Ok(updates)
  }

  /** The whole validation of `updateProfile` on a body: numeric fields, then theme, then
      notifications, then the empty-update check. */
  function ProfileUpdates(body: Document): (r: Result<Document, ProfileError>)
    ensures FirstBadIndex(body, NumericFields) < |NumericFields| ==>
      var p := FirstBadIndex(body, NumericFields);
      r == Err(NumericError(NumericFields[p], Get(body, NumericFields[p])))
    ensures r == Err(BadTheme) <==>
      FirstBadIndex(body, NumericFields) == |NumericFields|
      && Get(body, "theme") != Undefined && Get(body, "theme") !in {Str("light"), Str("dark")}
    ensures r == Err(NoValidFields) <==>
      && FirstBadIndex(body, NumericFields) == |NumericFields|
      && (forall k :: k in NumericFields ==> Get(body, k) == Undefined)
      && Get(body, "theme") == Undefined
      && !Get(body, "notifications").Obj?
    ensures r.Err? <==>
      || FirstBadIndex(body, NumericFields) < |NumericFields|
      || (Get(body, "theme") != Undefined && Get(body, "theme") !in {Str("light"), Str("dark")})
      || ((forall k :: k in NumericFields ==> Get(body, k) == Undefined)
          && Get(body, "theme") == Undefined && !Get(body, "notifications").Obj?)
    ensures r.Ok? ==> r.value.Keys != {} && r.value.Keys <= UpdatableKeys
    ensures r.Ok? ==> forall k :: k in NumericFields ==>
      (k in r.value <==> Get(body, k) != Undefined)
      && (k in r.value ==> r.value[k] == ToNumber(Get(body, k)) && r.value[k].Num? && r.value[k].n >= 0.0)
    ensures r.Ok? ==> ("theme" in r.value <==> Get(body, "theme") != Undefined)
    ensures r.Ok? && "theme" in r.value ==> r.value["theme"] == Get(body, "theme") && r.value["theme"] in {Str("light"), Str("dark")}
    ensures r.Ok? ==> ("notifications" in r.value <==> Get(body, "notifications").Obj?)
    ensures r.Ok? && "notifications" in r.value ==>
      r.value["notifications"] == FilledNotifications(Get(body, "notifications").fields)
  {
    match CheckNumeric(body, NumericFields)
    case Err(e) => Err(e)
    case Ok(numbers) =>
      assert "theme" !in NumericFields && "notifications" !in NumericFields;
      assert (forall k :: k in NumericFields ==> Get(body, k) == Undefined) <==> numbers == map[];
      ThemeAndNotifications(body, numbers)
  }

  /** Zero passes the numeric check: only a negative number is refused. */
  lemma ProfileUpdateZeroAccepted()
    ensures ProfileUpdates(map["age" := Num(0.0)]) == Ok(map["age" := Num(0.0)])
  {
    var b := map["age" := Num(0.0)];
    var r := ProfileUpdates(b);
    assert FirstBadIndex(b, NumericFields) == |NumericFields|;
    assert "age" in NumericFields && Get(b, "age") != Undefined;
    assert Get(b, "theme") == Undefined;
    assert r.Ok?;
    forall k | k in NumericFields && k != "age" ensures k !in r.value {
      assert Get(b, k) == Undefined;
    }
    assert "theme" !in r.value && "notifications" !in r.value;
    assert r.value.Keys == {"age"};
    assert r.value["age"] == ToNumber(Num(0.0)) == Num(0.0);
    assert r.value == map["age" := Num(0.0)];
  }

  /** The first bad key in the field order is the one reported. */
  lemma ProfileUpdateFirstBadKey()
    ensures ProfileUpdates(map["weight" := Num(-1.0), "age" := Obj(map[])]) == Err(NotANumber("age"))
  {
    var b := map["weight" := Num(-1.0), "age" := Obj(map[])];
    assert NumericFields[..1] == ["age"];
    assert FirstBadIndex(b, NumericFields[..1]) == 0;
    PrefixFirstBad(b, NumericFields, 1);
  }

  /** A negative number is reported before a bad theme. */
  lemma ProfileUpdateNegativeBeforeTheme()
    ensures ProfileUpdates(map["weight" := Num(-1.0), "theme" := Str("blue")]) == Err(NotPositive("weight"))
  {
    var b := map["weight" := Num(-1.0), "theme" := Str("blue")];
    assert NumericFields[..3] == ["age", "height", "weight"];
    assert NumericFields[..3][..2] == ["age", "height"];
    assert NumericFields[..2][..1] == ["age"];
    assert FirstBadIndex(b, NumericFields[..3]) == 2;
    PrefixFirstBad(b, NumericFields, 3);
  }

  /** A bad key within a prefix is the first bad key of the whole list. */
  lemma {:induction false} PrefixFirstBad(body: Document, keys: seq<string>, n: nat)
    requires n <= |keys| && FirstBadIndex(body, keys[..n]) < n
    ensures FirstBadIndex(body, keys) == FirstBadIndex(body, keys[..n])
    decreases |keys| - n
  {
    if n < |keys| {
      assert keys[..n + 1][..n] == keys[..n];
      PrefixFirstBad(body, keys, n + 1);
    } else {
      assert keys[..n] == keys;
    }
  }

  /** One more key of the loop: the prefix's result extended by that key's check. */
  lemma CheckNumericStep(body: Document, keys: seq<string>, k: nat, updates: Document)
    requires k < |keys| && CheckNumeric(body, keys[..k]) == Ok(updates)
    ensures var v := Get(body, keys[k]);
      CheckNumeric(body, keys[..k + 1]) ==
        if v == Undefined then Ok(updates)
        else if !NumericOk(v) then Err(NumericError(keys[k], v))
        else Ok(updates[keys[k] := ToNumber(v)])
  {
    assert keys[..k + 1][..k] == keys[..k];
  }

  /** `updateProfile`'s loop over the numeric fields. */
  method CheckNumericFields(body: Document) returns (r: Result<Document, ProfileError>)
    ensures r == CheckNumeric(body, NumericFields)
  {
    var updates: Document := map[];
    for k := 0 to |NumericFields|
      invariant CheckNumeric(body, NumericFields[..k]) == Ok(updates)
    {
      CheckNumericStep(body, NumericFields, k, updates);
      var key := NumericFields[k];
      var v := Get(body, key);
      if v != Undefined {
        var val := ToNumber(v);
        if val.NaN? {
          PrefixErrorPersists(body, NumericFields, k + 1);
          return Err(NotANumber(key));
        }
        if val.n < 0.0 {
          PrefixErrorPersists(body, NumericFields, k + 1);
          return Err(NotPositive(key));
        }
        updates := updates[key := val];
      }
    }
    assert NumericFields[..|NumericFields|] == NumericFields;
    r := Ok(updates);
  }

  /** `updateProfile`'s validation: the numeric loop, the theme loop and the notifications. */
  method ValidateProfileUpdate(body: Document) returns (r: Result<Document, ProfileError>)
    ensures r == ProfileUpdates(body)
  {
    var numbers := CheckNumericFields(body);
    if numbers.Err? {
      return numbers;
    }
    var updates := numbers.value;
    ProfileUpdatesAfterNumbers(body, updates);
    ghost var expected := ThemeAndNotifications(body, updates);
    var theme := Get(body, "theme");
    if theme != Undefined {
      if theme !in {Str("light"), Str("dark")} {
        return Err(BadTheme);
      }
      updates := updates["theme" := theme];
    }
    var notifications := Get(body, "notifications");
    if notifications.Obj? {
      updates := updates["notifications" := FilledNotifications(notifications.fields)];
    }
    if updates.Keys == {} {
      return Err(NoValidFields);
    }
    r := Ok(updates);
  }

  /** Once the numeric fields pass, the rest of the validation is the theme and notifications step. */
  lemma ProfileUpdatesAfterNumbers(body: Document, numbers: Document)
    requires CheckNumeric(body, NumericFields) == Ok(numbers)
    ensures "theme" !in numbers && "notifications" !in numbers
    ensures ProfileUpdates(body) == ThemeAndNotifications(body, numbers)
  {
    assert "theme" !in NumericFields && "notifications" !in NumericFields;
  }

  /** Once a prefix of the keys fails, the whole list fails with the same complaint. */
  lemma {:induction false} PrefixErrorPersists(body: Document, keys: seq<string>, n: nat)
    requires n <= |keys| && CheckNumeric(body, keys[..n]).Err?
    ensures CheckNumeric(body, keys) == CheckNumeric(body, keys[..n])
    decreases |keys| - n
  {
    if n < |keys| {
      assert keys[..n + 1][..n] == keys[..n];
      PrefixErrorPersists(body, keys, n + 1);
    } else {
      assert keys[..n] == keys;
    }
  }

  // ---------------------------------------------------------------------------
  // Password change pre-checks

  /** The pre-checks of `changePassword`, made before any lookup or hashing: both passwords
      present, the new one at least 8 long, and different from the old one. */
  function PasswordPreCheck(oldPassword: JsValue, newPassword: JsValue): (r: Option<ProfileError>)
    ensures r == Some(PasswordsRequired) <==> !Truthy(oldPassword) || !Truthy(newPassword)
    ensures r == Some(PasswordTooShort) <==>
      Truthy(oldPassword) && Truthy(newPassword) && LessThan(LengthOf(newPassword), 8.0)
    ensures r == Some(PasswordUnchanged) <==>
      Truthy(oldPassword) && Truthy(newPassword) && !LessThan(LengthOf(newPassword), 8.0)
      && StrictEquals(oldPassword, newPassword)
    ensures r.None? || r.value in {PasswordsRequired, PasswordTooShort, PasswordUnchanged}
  {
    if !Truthy(oldPassword) || !Truthy(newPassword) then Some(PasswordsRequired)
    else if LessThan(LengthOf(newPassword), 8.0) then Some(PasswordTooShort)
    else if StrictEquals(oldPassword, newPassword) then Some(PasswordUnchanged)
    else None
  }

  /** For two strings: accepted exactly when the old one is not empty, the new one has at least
      8 characters and they differ. */
  lemma PasswordPreCheckOnStrings(oldPassword: string, newPassword: string)
    ensures PasswordPreCheck(Str(oldPassword), Str(newPassword)).None? <==>
      oldPassword != "" && |newPassword| >= 8 && oldPassword != newPassword
  {
  }

  /** A short new password is reported as short even when it equals the old one. */
  lemma ShortBeforeUnchanged()
    ensures PasswordPreCheck(Str("abc"), Str("abc")) == Some(PasswordTooShort)
  {
  }

  // ---------------------------------------------------------------------------
  // The user store

  /** `.select('-passwordHash -__v')`. */
  function PublicProfile(doc: Document): (r: Document)
    ensures "passwordHash" !in r && "__v" !in r
    ensures forall k :: k in r <==> k in doc && k != "passwordHash" && k != "__v"
    ensures forall k :: k in r ==> r[k] == doc[k]
  {
    doc - {"passwordHash", "__v"}
  }

  /** The record `updateProfile` stores: the old record with the updates set, and the score of
      exactly that merged record. */
  function UpdatedRecord(doc: Document, updates: Document): (r: Document)
    ensures forall k :: k in r <==> k in doc || k in updates || k == "profileCompletion"
    ensures forall k :: k in updates && k != "profileCompletion" ==> r[k] == updates[k]
    ensures forall k :: k in doc && k !in updates && k != "profileCompletion" ==> r[k] == doc[k]
    ensures r["profileCompletion"] == Num(ProfileCompletion(doc + updates) as real)
  {
    var merged := doc + updates;
    merged["profileCompletion" := Num(ProfileCompletion(merged) as real)]
  }

  /** Stored documents are valid and no two users share an email. */
  ghost predicate ValidUsers(users: map<Id, Document>) {
    && (forall id :: id in users ==> ValidUserDocument(users[id]))
    && (forall i, j :: i in users && j in users && i != j ==> Get(users[i], "email") != Get(users[j], "email"))
  }

  /** A record whose name, email and theme rules still hold and whose score is in range keeps
      the store valid. */
  lemma ValidAfterReplace(users: map<Id, Document>, id: Id, doc: Document)
    requires ValidUsers(users) && id in users
    requires ValidUserDocument(doc) && Get(doc, "email") == Get(users[id], "email")
    ensures ValidUsers(users[id := doc])
  {
  }

  /** Setting keys other than the name, the email and the score, with a theme from the enum,
      and recomputing the score keeps a stored document valid and its email. */
  lemma UpdatedRecordValid(doc: Document, updates: Document)
    requires ValidUserDocument(doc)
    requires "name" !in updates && "email" !in updates
    requires "theme" in updates ==> updates["theme"] in {Str("light"), Str("dark")}
    ensures ValidUserDocument(UpdatedRecord(doc, updates))
    ensures Get(UpdatedRecord(doc, updates), "email") == Get(doc, "email")
  {
    var r := UpdatedRecord(doc, updates);
    assert Get(r, "name") == Get(doc, "name");
    assert Get(r, "theme") == (if "theme" in updates then updates["theme"] else Get(doc, "theme"));
  }

  /** An accepted update never touches the name, the email or the score. */
  lemma ProfileUpdatesKeepIdentity(body: Document)
    requires ProfileUpdates(body).Ok?
    ensures var u := ProfileUpdates(body).value;
      "name" !in u && "email" !in u && "profileCompletion" !in u
      && ("theme" in u ==> u["theme"] in {Str("light"), Str("dark")})
  {
    IdentityKeysNotUpdatable();
  }

  lemma IdentityKeysNotUpdatable()
    ensures "name" !in UpdatableKeys && "email" !in UpdatableKeys && "profileCompletion" !in UpdatableKeys
  {
  }

  class UserStore {
    var users: map<Id, Document>

    ghost predicate Valid()
      reads this
    {
      ValidUsers(users)
    }

    constructor (initial: map<Id, Document>)
      requires ValidUsers(initial)
      ensures Valid() && users == initial
    {
      users := initial;
    }

    /** `getProfile`. */
    method GetProfile(owner: Option<Id>) returns (r: Result<Document, ProfileError>)
      ensures owner.None? <==> r == Err(Unauthorized)
      ensures owner.Some? && owner.value !in users ==> r == Err(UserNotFound)
      ensures owner.Some? && owner.value in users ==> r.Ok?
      ensures owner.Some? && owner.value in users ==> r == Ok(PublicProfile(users[owner.value]))
    {
      if owner.None? {
        return Err(Unauthorized);
      }
      if owner.value !in users {
        return Err(UserNotFound);
      }
      r := Ok(PublicProfile(users[owner.value]));
    }

    /** `updateProfile`: the owner check, the validation, then one write of the updates and the
        recomputed score. */
    method UpdateProfile(owner: Option<Id>, body: Document) returns (r: Result<Document, ProfileError>)
      requires Valid()
      modifies this
      ensures Valid()
      ensures owner.None? ==> r == Err(Unauthorized) && users == old(users)
      ensures owner.Some? && ProfileUpdates(body).Err? ==> r == Err(ProfileUpdates(body).error) && users == old(users)
      ensures owner.Some? && ProfileUpdates(body).Ok? && owner.value !in old(users) ==>
        r == Err(UserMissing) && users == old(users)
      ensures owner.Some? && ProfileUpdates(body).Ok? && owner.value in old(users) ==>
        var doc := UpdatedRecord(old(users)[owner.value], ProfileUpdates(body).value);
        users == old(users)[owner.value := doc] && r == Ok(PublicProfile(doc))
    {
      if owner.None? {
        return Err(Unauthorized);
      }
      var updates := ValidateProfileUpdate(body);
      if updates.Err? {
        return Err(updates.error);
      }
      if owner.value !in users {
        return Err(UserMissing);
      }
      var completion := CalculateProfileCompletion(users[owner.value] + updates.value);
      var doc := (users[owner.value] + updates.value)["profileCompletion" := Num(completion as real)];
      assert doc == UpdatedRecord(users[owner.value], updates.value);
      ProfileUpdatesKeepIdentity(body);
      UpdatedRecordValid(users[owner.value], updates.value);
      ValidAfterReplace(users, owner.value, doc);
      users := users[owner.value := doc];
      r := Ok(PublicProfile(doc));
    }

    /** `updateAvatar`: a non-empty string is stored with the recomputed score. */
    method UpdateAvatar(owner: Option<Id>, avatarUrl: JsValue) returns (r: Result<Document, ProfileError>)
      requires Valid()
      modifies this
      ensures Valid()
      ensures owner.None? ==> r == Err(Unauthorized) && users == old(users)
      ensures owner.Some? && !(Truthy(avatarUrl) && avatarUrl.Str?) ==> r == Err(BadAvatar) && users == old(users)
      ensures owner.Some? && Truthy(avatarUrl) && avatarUrl.Str? && owner.value !in old(users) ==>
        r == Err(UserMissing) && users == old(users)
      ensures owner.Some? && Truthy(avatarUrl) && avatarUrl.Str? && owner.value in old(users) ==>
        var doc := UpdatedRecord(old(users)[owner.value], map["avatarUrl" := avatarUrl]);
        users == old(users)[owner.value := doc] && r == Ok(PublicProfile(doc))
    {
      if owner.None? {
        return Err(Unauthorized);
      }
      if !(Truthy(avatarUrl) && avatarUrl.Str?) {
        return Err(BadAvatar);
      }
      if owner.value !in users {
        return Err(UserMissing);
      }
      var doc := UpdatedRecord(users[owner.value], map["avatarUrl" := avatarUrl]);
      UpdatedRecordValid(users[owner.value], map["avatarUrl" := avatarUrl]);
      ValidAfterReplace(users, owner.value, doc);
      users := users[owner.value := doc];
      r := Ok(PublicProfile(doc));
    }

    /** `removeAvatar`: the avatar becomes null and the score is recomputed. */
    method RemoveAvatar(owner: Option<Id>) returns (r: Result<Document, ProfileError>)
      requires Valid()
      modifies this
      ensures Valid()
      ensures owner.None? ==> r == Err(Unauthorized) && users == old(users)
      ensures owner.Some? && owner.value !in old(users) ==> r == Err(UserMissing) && users == old(users)
      ensures owner.Some? && owner.value in old(users) ==>
        var doc := UpdatedRecord(old(users)[owner.value], map["avatarUrl" := Null]);
        users == old(users)[owner.value := doc] && r == Ok(PublicProfile(doc))
    {
      if owner.None? {
        return Err(Unauthorized);
      }
      if owner.value !in users {
        return Err(UserMissing);
      }
      var doc := UpdatedRecord(users[owner.value], map["avatarUrl" := Null]);
      UpdatedRecordValid(users[owner.value], map["avatarUrl" := Null]);
      ValidAfterReplace(users, owner.value, doc);
      users := users[owner.value := doc];
      r := Ok(PublicProfile(doc));
    }

    /** `changePassword`. `oldPasswordMatches` is what comparing the old password with the
        stored hash yields and `newHash` the hash of the new password; both are computed
        outside this model. */
    method ChangePassword(owner: Option<Id>, oldPassword: JsValue, newPassword: JsValue,
                          oldPasswordMatches: bool, newHash: string, now: int)
      returns (r: Result<Document, ProfileError>)
      requires Valid()
      modifies this
      ensures Valid()
      ensures owner.None? ==> r == Err(Unauthorized) && users == old(users)
      ensures owner.Some? && PasswordPreCheck(oldPassword, newPassword).Some? ==>
        r == Err(PasswordPreCheck(oldPassword, newPassword).value) && users == old(users)
      ensures owner.Some? && PasswordPreCheck(oldPassword, newPassword).None? ==>
        if owner.value !in old(users) then r == Err(UserNotFound) && users == old(users)
        else if !Truthy(Get(old(users)[owner.value], "passwordHash")) then r == Err(NoPasswordSet) && users == old(users)
        else if !oldPasswordMatches then r == Err(WrongOldPassword) && users == old(users)
        else
          var doc := old(users)[owner.value]["passwordHash" := Str(newHash)]["passwordUpdatedAt" := Num(now as real)];
          users == old(users)[owner.value := doc] && r == Ok(PublicProfile(doc))
    {
      if owner.None? {
        return Err(Unauthorized);
      }
      var pre := PasswordPreCheck(oldPassword, newPassword);
      if pre.Some? {
        return Err(pre.value);
      }
      if owner.value !in users {
        return Err(UserNotFound);
      }
      var user := users[owner.value];
      if !Truthy(Get(user, "passwordHash")) {
        return Err(NoPasswordSet);
      }
      if !oldPasswordMatches {
        return Err(WrongOldPassword);
      }
      var doc := user["passwordHash" := Str(newHash)]["passwordUpdatedAt" := Num(now as real)];
      ValidAfterReplace(users, owner.value, doc);
      users := users[owner.value := doc];
      r := Ok(PublicProfile(doc));
    }
  }

  // ---------------------------------------------------------------------------
  // Statistics

  /** A water record of `owner` dated within the day that starts at `start`. */
  predicate InDay(e: WaterEntry, owner: Id, start: int) {
    e.user == Some(owner) && start <= e.date < start + MsPerDay
  }

  /** The `$match` and `$sum` of the water aggregation. */
  function TodayWater(water: seq<WaterEntry>, owner: Id, start: int): real {
    if water == [] then 0.0
    else
      var last := water[|water| - 1];
      TodayWater(water[..|water| - 1], owner, start) + (if InDay(last, owner, start) then last.amount else 0.0)
  }

  /** No matching record: the total is 0. */
  lemma {:induction false} TodayWaterNone(water: seq<WaterEntry>, owner: Id, start: int)
    requires forall i :: 0 <= i < |water| ==> !InDay(water[i], owner, start)
    ensures TodayWater(water, owner, start) == 0.0
  {
    if water != [] {
      TodayWaterNone(water[..|water| - 1], owner, start);
    }
  }

  /** Creating a record adds its amount when it is the owner's and dated today. */
  lemma TodayWaterAfterCreate(water: seq<WaterEntry>, e: WaterEntry, owner: Id, start: int)
    ensures TodayWater(water + [e], owner, start)
         == TodayWater(water, owner, start) + (if InDay(e, owner, start) then e.amount else 0.0)
  {
    assert (water + [e])[..|water|] == water;
  }

  /** Adding `amount` to record `id` changes the total by `amount` exactly when that record is
      the owner's and dated today, and leaves it otherwise. */
  lemma {:induction false} TodayWaterAfterLog(water: seq<WaterEntry>, id: nat, amount: real, owner: Id, start: int)
    requires id < |water|
    ensures TodayWater(water[id := water[id].(amount := water[id].amount + amount)], owner, start)
         == TodayWater(water, owner, start) + (if InDay(water[id], owner, start) then amount else 0.0)
  {
    var w2 := water[id := water[id].(amount := water[id].amount + amount)];
    var n := |water| - 1;
    if id == n {
      assert w2[..n] == water[..n];
    } else {
      assert w2[..n] == water[..n][id := water[id].(amount := water[id].amount + amount)];
      TodayWaterAfterLog(water[..n], id, amount, owner, start);
    }
  }

  /** The statistics `getUserStats` answers with. */
  datatype UserStats = UserStats(
    todayCalories: real, todayWater: real,
    averageDailyCalories: JsValue, averageDailyWater: JsValue, streak: JsValue)

  /** `x || 0`. */
  function OrZero(v: JsValue): (r: JsValue)
    ensures Truthy(v) ==> r == v
    ensures !Truthy(v) ==> r == Num(0.0)
  {
    if Truthy(v) then v else Num(0.0)
  }

  /** `Number(x) || 0` read as a value agrees with the number `Js.NumberOrZero` gives, and
      `|| 0` applied twice is applied once. */
  lemma OrZeroOfNumber(v: JsValue)
    ensures OrZero(ToNumber(v)) == Num(NumberOrZero(v))
    ensures OrZero(OrZero(v)) == OrZero(v)
  {
    match ToNumber(v)
    case NaN =>
    case Num(n) =>
  }

  /** `getUserStats`: today's water of the user, from local midnight for one day, and the
      stored statistics with 0 for missing ones. */
  function GetUserStats(users: map<Id, Document>, water: seq<WaterEntry>, owner: Option<Id>, now: int, offset: int)
    : (r: Result<UserStats, ProfileError>)
    ensures owner.None? <==> r == Err(Unauthorized)
    ensures owner.Some? && owner.value !in users ==> r == Err(UserNotFound)
    ensures r.Ok? <==> owner.Some? && owner.value in users
    ensures r.Ok? ==> r.value.todayCalories == 0.0
    ensures r.Ok? ==> r.value.todayWater == TodayWater(water, owner.value, StartOfDay(now, offset))
    ensures r.Ok? ==>
      var doc := users[owner.value];
      && r.value.averageDailyCalories == OrZero(Get(doc, "averageDailyCalories"))
      && r.value.averageDailyWater == OrZero(Get(doc, "averageDailyWater"))
      && r.value.streak == OrZero(Get(doc, "streak"))
  {
    if owner.None? then Err(Unauthorized)
    else if owner.value !in users then Err(UserNotFound)
    else
      var doc := users[owner.value];
      var start := StartOfDay(now, offset);
      Ok(UserStats(0.0, TodayWater(water, owner.value, start),
                   OrZero(Get(doc, "averageDailyCalories")), OrZero(Get(doc, "averageDailyWater")),
                   OrZero(Get(doc, "streak"))))
  }
}
