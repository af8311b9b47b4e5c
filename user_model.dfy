/** The User record: account, profile, goals, statistics and settings, with the schema's
    enums, defaults and ranges. */
module UserModel {
  import opened Common
  import opened Js

  datatype Theme = Light | Dark

  datatype Notifications = Notifications(push: bool, email: bool, reminders: bool)

  /** `name` and `email` are required; the profile fields, the avatar and the password fields
      are optional. Dates are in milliseconds. */
  datatype User = User(
    name: string,
    email: string,
    passwordHash: Option<string>,
    passwordUpdatedAt: Option<int>,
    age: Option<real>,
    height: Option<real>,
    weight: Option<real>,
    avatarUrl: Option<string>,
    dailyCalorieGoal: real,
    dailyWaterGoal: real,
    streak: real,
    averageDailyCalories: real,
    averageDailyWater: real,
    theme: Theme,
    notifications: Notifications,
    profileCompletion: real)

  /** A user as the schema first stores it: every path with a default takes it. */
  function NewUser(name: string, email: string): (u: User)
    ensures u.name == name && u.email == email
    ensures u.dailyCalorieGoal == 2000.0 && u.dailyWaterGoal == 2.0
    ensures u.streak == 0.0 && u.averageDailyCalories == 0.0 && u.averageDailyWater == 0.0
    ensures u.theme == Light
    ensures u.notifications == Notifications(true, true, true)
    ensures u.profileCompletion == 0.0
    ensures u.age.None? && u.height.None? && u.weight.None? && u.avatarUrl.None?
  {
    User(name, email, None, None, None, None, None, None,
         2000.0, 2.0, 0.0, 0.0, 0.0, Light, Notifications(true, true, true), 0.0)
  }

  /** A required string must not be empty; `profileCompletion` lies in [0, 100]. */
  predicate ValidUser(u: User) {
    u.name != "" && u.email != "" && 0.0 <= u.profileCompletion <= 100.0
  }

  lemma NewUserValid(name: string, email: string)
    requires name != "" && email != ""
    ensures ValidUser(NewUser(name, email))
  {
  }

  function ThemeName(t: Theme): string {
    match t
    case Light => "light"
    case Dark => "dark"
  }

  /** The optional paths of a stored user that are set. */
  function OptionalPaths(u: User): Document {
    (if u.passwordHash.Some? then map["passwordHash" := Str(u.passwordHash.value)] else map[])
    + (if u.passwordUpdatedAt.Some? then map["passwordUpdatedAt" := Num(u.passwordUpdatedAt.value as real)] else map[])
    + (if u.age.Some? then map["age" := Num(u.age.value)] else map[])
    + (if u.height.Some? then map["height" := Num(u.height.value)] else map[])
    + (if u.weight.Some? then map["weight" := Num(u.weight.value)] else map[])
    + (if u.avatarUrl.Some? then map["avatarUrl" := Str(u.avatarUrl.value)] else map[])
  }

  /** `user.toObject()`: the stored document, with unset optional paths left out. */
  function ToDocument(u: User): (d: Document)
    ensures Get(d, "name") == Str(u.name) && Get(d, "email") == Str(u.email)
    ensures Get(d, "theme") == Str(ThemeName(u.theme))
    ensures Get(d, "profileCompletion") == Num(u.profileCompletion)
  {
    var notifications := Obj(map["push" := Bool(u.notifications.push),
                                "email" := Bool(u.notifications.email),
                                "reminders" := Bool(u.notifications.reminders)]);
    var required := map[
      "dailyCalorieGoal" := Num(u.dailyCalorieGoal), "dailyWaterGoal" := Num(u.dailyWaterGoal),
      "streak" := Num(u.streak), "averageDailyCalories" := Num(u.averageDailyCalories),
      "averageDailyWater" := Num(u.averageDailyWater), "notifications" := notifications,
      "name" := Str(u.name), "email" := Str(u.email),
      "theme" := Str(ThemeName(u.theme)), "profileCompletion" := Num(u.profileCompletion)];
    OptionalPaths(u) + required
  }

  /** The document of a user as the schema first stores it has none of the optional paths. */
  lemma NewUserAbsentPaths(name: string, email: string)
    ensures var d := ToDocument(NewUser(name, email));
      "age" !in d && "height" !in d && "weight" !in d && "avatarUrl" !in d
  {
    assert OptionalPaths(NewUser(name, email)) == map[];
  }

  /** ... and its goals and flags take their defaults. */
  lemma NewUserDefaults(name: string, email: string)
    ensures var d := ToDocument(NewUser(name, email));
      && Get(d, "dailyCalorieGoal") == Num(2000.0) && Get(d, "dailyWaterGoal") == Num(2.0)
      && Get(d, "notifications") == Obj(map["push" := Bool(true), "email" := Bool(true), "reminders" := Bool(true)])
  {
  }

  /** What every stored user document satisfies: the required strings are set, `theme` is one
      of the enum's strings and `profileCompletion` a number in [0, 100]. */
  predicate ValidUserDocument(d: Document) {
    && Get(d, "name").Str? && Get(d, "name").s != ""
    && Get(d, "email").Str? && Get(d, "email").s != ""
    && Get(d, "theme") in {Str("light"), Str("dark")}
    && Get(d, "profileCompletion").Num?
    && 0.0 <= Get(d, "profileCompletion").n <= 100.0
  }

  lemma ValidUserDocumentOfUser(u: User)
    requires ValidUser(u)
    ensures ValidUserDocument(ToDocument(u))
  {
  }
}
