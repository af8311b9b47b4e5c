# vibecalori nutrition backend: a Dafny model

This project models the core of the vibecalori backend, a calorie and macronutrient tracker:

- **Calorie trackers.** The create route validates a weight goal, an age and the weekly
  exercise days. It computes BMR (basal metabolic rate), TDEE (total daily energy expenditure)
  and a calorie target, all on a 50-kcal grid, and stores a tracker.
- **Calorie logs.** The log route updates a named log or creates one, filed under a UTC day.
  The read route returns a tracker with its latest 30 logs.
- **The formula endpoint.** `calculateMacros` applies the Mifflin-St Jeor formula and looks up
  the activity multiplier (PAL), the macro split and the protein range by activity level. It
  converts energy to grams at 4/9/4 kcal per gram.
- **Saved targets.** A per-owner snapshot store where the last save wins.
- **The daily macro accumulator.** `logMacros` finds or creates the log for an owner and local
  day, adds the meal's amounts to the totals and appends the meal. `getTodayMacros` reads it.
- **Profile logic.** The profile completion score, and the validation and merge of profile and
  avatar updates. Also the pre-checks and write of a password change, and the statistics with
  today's water.
- **The water store.** Create, get, and add to an amount.
- **The four record schemas.** Their enums, ranges, defaults and the compound indexes that are
  not unique.

Request-body values that the handlers check or convert are modelled as JavaScript values
(`Js.JsValue`): the tracker fields, the logged calories, the profile update and the formula
inputs. Dafny functions model truthiness, `Number(x)`, comparison with NaN, `Number(x) || 0`,
`Math.round` and strict equality. Numbers are exact reals. Timestamps are integer
milliseconds. A calorie log's note and items and a water amount, which are only passed on to
the store, are typed (a string, a list of items, a real); the log date is absent, `null` or a
timestamp.

Stores are classes:

- One over sequences for trackers and logs. A record's id is its position in allocation order.
- A map from owner to snapshot for saved targets.
- A map from id to document for users.

The handlers that read or write a store are methods. A precondition says which store
invariant a method relies on. Its postcondition gives the result for every branch and the
whole new state. `calculateMacros` writes nothing and is a function of the request; the
statistics handler only reads, and is a function of the user documents and the water entries.
The decisions behind each handler are pure functions, and the properties of the source are
proved about those functions.

Two facts from the code:

- **Two calorie logs a day.** The log route creates a new log whenever no `logId` is given,
  and the index at `backend/models/calorieLog.model.js:26` is not unique. So one owner,
  tracker and day can hold two logs (`CalorieRoutes.TwoLogsOneDay`).
- **BMR of a man aged 30, 180 cm and 80 kg.** The formula at
  `backend/controllers/nutritive.controller.js:20` gives 800 + 1125 - 150 + 5 = 1780.
  `Nutritive.CalculateMacrosExample` states the values: BMR 1780, TDEE 2759, and
  172 / 92 / 310 g.

## Model

| member | source | states |
|---|---|---|
| Js.ToNumber | backend/controllers/nutritive.controller.js:10-13 | `Number(v)` is a number or NaN; a number converts to itself; undefined, NaN and plain objects convert to NaN |
| Js.NumberOrZero | backend/controllers/macro.controller.js:10-12 | `Number(v) \|\| 0` is 0 exactly when the conversion gives NaN, and the converted number otherwise, negative numbers included |
| Js.Round | backend/controllers/nutritive.controller.js:59-61 | `Math.round(x)` is an integer in (x - 0.5, x + 0.5], so a half rounds up |
| Js.RoundOfInteger | backend/controllers/user.controller.js:42 | `Math.round` is the identity on integers |
| Js.CastNumber | models/calories.models.js:9-10 | a value the store keeps for a Number path equals what `Number` gives; null, undefined and NaN cannot be kept |
| Js.LowerCase | backend/routes/calories.routes.js:16 | lower-casing keeps the length, maps every character on its own and leaves no character that lower-cases further |
| Js.LowerCaseIdempotent | backend/routes/calories.routes.js:16 | lower-casing twice is lower-casing once |
| Js.LowerCaseKeeps | backend/routes/calories.routes.js:16-17 | a string with no upper-case letter, such as the words compared against, is its own lower case |
| Js.LowerCaseOfUpperCase | backend/routes/calories.routes.js:16-17 | upper-casing a string does not change it once lower-cased |
| Js.DigitsToNumber | backend/controllers/macro.controller.js:10-12 | a string of decimal digits converts to its decimal value |
| Js.NumberOfDecimalString | backend/controllers/user.controller.js:82 | `Number(String(n))` gives back `n` for every natural number |
| DayClock.StartOfUTCDay | backend/routes/calories.routes.js:20 | UTC midnight is a multiple of a day and lies within the day before `t`: r <= t < r + 86400000 |
| DayClock.StartOfUTCDayUnique | backend/routes/calories.routes.js:20 | the only multiple of a day within one day below `t` is its UTC midnight |
| DayClock.StartOfUTCDayIdempotent | backend/routes/calories.routes.js:20 | UTC midnight of UTC midnight is itself |
| DayClock.StartOfLocalDay | backend/controllers/macro.controller.js:14-15 | local midnight at a fixed offset reads 0:00 locally and lies within the day before `t` |
| DayClock.StartOfLocalDayUnique | backend/controllers/macro.controller.js:14-15 | local midnight is the only such instant |
| DayClock.StartOfLocalDayIdempotent | backend/controllers/macro.controller.js:14-15 | local midnight of local midnight is itself |
| CalorieTrackerModel.WeightGoalOf | backend/routes/calories.routes.js:28 | a goal is accepted exactly when it is one of the strings "gain", "lose" and "maintain", and each string gives its own goal |
| CalorieLogModel.IndexAdmitsTwoLogsPerDay | backend/models/calorieLog.model.js:26 | two different valid logs can share owner, tracker and date |
| MacroLogModel.IndexAdmitsTwoLogsPerDay | backend/models/macroLog.model.js:22 | two different valid macro logs can share owner and date |
| UserModel.NewUser | backend/models/user.model.js:17-38 | a new user takes the defaults: goals 2000 and 2, statistics 0, theme light, all three flags true, score 0, no profile fields |
| UserModel.NewUserValid | backend/models/user.model.js:5-6 | a new user with a non-empty name and email passes the schema |
| UserModel.ToDocument | backend/models/user.model.js:5-38 | the stored document carries the name, email, theme string and score of the user |
| UserModel.NewUserAbsentPaths | backend/models/user.model.js:11-14 | a new user's document has no age, height, weight or avatar |
| UserModel.NewUserDefaults | backend/models/user.model.js:17-35 | a new user's document holds the default goals and three true flags |
| UserModel.ValidUserDocumentOfUser | backend/models/user.model.js:5-38 | the document of a valid user satisfies the stored-document invariant (required strings, theme enum, score in [0, 100]) |
| CalorieRoutes.Round50 | backend/routes/calories.routes.js:8 | `round50(x)` is a multiple of 50 in (x - 25, x + 25] |
| CalorieRoutes.Round50OfMultiple | backend/routes/calories.routes.js:8 | `round50` is the identity on multiples of 50 |
| CalorieRoutes.GetPal | backend/routes/calories.routes.js:9-14 | a step function of the number of days: at most 1 gives 1.2, (1, 3] gives 1.375, (3, 5] gives 1.55, more (and NaN) gives 1.725; never 1.9 |
| CalorieRoutes.GetPalMonotone | backend/routes/calories.routes.js:9-14 | more exercise days never give a smaller multiplier |
| CalorieRoutes.NormalizeGender | backend/routes/calories.routes.js:15-18 | female exactly when the lower-cased gender is "female" or "kadin", so a missing gender is male |
| CalorieRoutes.NormalizeGenderIgnoresCase | backend/routes/calories.routes.js:15-18 | letter case does not change the result |
| CalorieRoutes.NormalizeGenderExamples | backend/routes/calories.routes.js:15-18 | "Female" and "KADIN" are female; "male", "woman" and "" are male |
| CalorieRoutes.TargetCaloriesDelta | backend/routes/calories.routes.js:52-55 | on the 50-kcal grid the target is tdee - 500 to lose, tdee + 300 to gain and tdee to maintain |
| CalorieRoutes.PlanTracker | backend/routes/calories.routes.js:25-70 | the goal, age and day checks fail in that order, each exactly when its condition holds, and a tracker is made exactly when all pass and the caller has height and weight; it is the caller's and valid, stores the cast age and days and the caller's height and weight, with bmr = Mifflin-St Jeor rounded to 50, tdee = bmr × PAL rounded to 50, and target = tdee + goal delta |
| CalorieRoutes.CreateExample | backend/routes/calories.routes.js:42-55 | a man of 30, 180 cm and 80 kg, 4 days a week, losing: bmr 1800, tdee 2800, target 2300 |
| CalorieRoutes.LogDay | backend/routes/calories.routes.js:112 | a log is filed under the UTC midnight of its date, or of now when the date is absent, `null` or 0 |
| CalorieRoutes.PatchLog | backend/routes/calories.routes.js:114-122 | the update sets only the supplied fields and keeps owner and tracker; any date other than an absent one, `null` included, re-dates the log; it is refused exactly for NaN calories or an item with negative calories; a valid log stays valid |
| CalorieRoutes.NullDateRedatesToToday | backend/routes/calories.routes.js:112-121 | an update with `date: null` moves the log to the UTC midnight of now |
| CalorieRoutes.NewLog | backend/routes/calories.routes.js:125-133 | a created log belongs to the owner, tracker and day, has calories 0 when they are absent or NaN, and is valid; it is refused exactly for a negative item |
| CalorieRoutes.InsertPosition | backend/routes/calories.routes.js:89 | every log before the position is newer and the one at it is not |
| CalorieRoutes.InsertKeepsOrder | backend/routes/calories.routes.js:89 | inserting at that position keeps the list in descending date order without repetitions |
| CalorieRoutes.CollectStep | backend/routes/calories.routes.js:89 | one more scanned log keeps exactly the matching logs so far, in descending date order |
| CalorieRoutes.CollectedLatest | backend/routes/calories.routes.js:89 | the first 30 of all matching logs in date order are the latest 30 |
| CalorieRoutes.CalorieService.Create | backend/routes/calories.routes.js:23-70 | a rejected request stores nothing; an accepted one appends the planned tracker under the next id; logs are untouched and the store stays valid |
| CalorieRoutes.CalorieService.Read | backend/routes/calories.routes.js:83-90 | not found exactly when the caller does not own the tracker; otherwise the tracker and at most 30 of its logs, newest first, with no newer log left out |
| CalorieRoutes.CalorieService.Log | backend/routes/calories.routes.js:98-135 | bad calories, then a foreign tracker, reject with no write; with `logId` the caller's log is patched in place (its tracker is not checked), otherwise a new log is appended; trackers are untouched and the store stays valid |
| CalorieRoutes.TwoLogsOneDay | backend/routes/calories.routes.js:114-133 | two create requests without `logId` for one tracker and day append two logs with the same owner, tracker and date |
| Nutritive.ActivityOf | backend/controllers/nutritive.controller.js:30-37 | only a string equal to a table key finds a row |
| Nutritive.ActivityOfName | backend/controllers/nutritive.controller.js:30-37 | every level is found by its own name |
| Nutritive.PalOf | backend/controllers/nutritive.controller.js:30-36 | every multiplier lies in [1.2, 1.9] |
| Nutritive.PalStrictlyIncreasing | backend/controllers/nutritive.controller.js:30-36 | the multiplier increases strictly from sedentary to very active |
| Nutritive.SplitOf | backend/controllers/nutritive.controller.js:44-50 | every share is positive and each row sums to exactly 1 |
| Nutritive.ProteinRangeOf | backend/controllers/nutritive.controller.js:68-74 | every range has 0 < low < high |
| Nutritive.BmrOf | backend/controllers/nutritive.controller.js:20 | the male formula applies exactly to the string "male", the female one to anything else |
| Nutritive.BmrGenderGap | backend/controllers/nutritive.controller.js:20 | the two formulas differ by 166 kcal, and "Male" gets the female one |
| Nutritive.GramsWithin | backend/controllers/nutritive.controller.js:59-61 | whole grams at 4 or 9 kcal per gram move the energy by at most half a gram's energy |
| Nutritive.GramsEnergyWithin | backend/controllers/nutritive.controller.js:54-61 | the three gram targets' energy lies within 8.5 kcal of the energy they split |
| Nutritive.CalculateMacros | backend/controllers/nutritive.controller.js:5-101 | missing fields, then NaN numbers, fail in that order and exactly when they hold; the report has the converted inputs, the rounded BMR and TDEE, and the row's PAL, split, grams and protein range; an unknown level gets PAL 1.2, the split 0.2/0.3/0.5 and the range (0.8, 1.0) |
| Nutritive.MacroEnergyNearTdee | backend/controllers/nutritive.controller.js:54-61 | 4 protein_g + 9 fat_g + 4 carbs_g lies within 8.5 kcal of the TDEE |
| Nutritive.ZeroAgeMissing | backend/controllers/nutritive.controller.js:6-8 | age 0 is rejected as missing |
| Nutritive.CalculateMacrosExample | backend/controllers/nutritive.controller.js:10-101 | a moderately active man of 30, 180 cm and 80 kg: BMR 1780, TDEE 2759, 172/92/310 g, 690/828/1242 kcal, range (1.2, 1.6) |
| Nutritive.TargetStore.Save | backend/controllers/nutritive.controller.js:114-131 | a missing owner, then missing macros, reject with no write; otherwise only that owner's snapshot is replaced by the body's values |
| Nutritive.TargetStore.Get | backend/controllers/nutritive.controller.js:134-144 | null for an owner who never saved, the last snapshot otherwise, unauthorized without an owner |
| MacroController.MealName | backend/controllers/macro.controller.js:24 | the name is never empty and is the given one when there is one |
| MacroController.MealOf | backend/controllers/macro.controller.js:10-24 | each amount is 0 when it converts to NaN and the converted number otherwise; the name defaults to "Meal" |
| MacroController.CoercionToZero | backend/controllers/macro.controller.js:10-12 | missing, non-numeric and zero amounts become 0 |
| MacroController.CoercionKeepsNumbers | backend/controllers/macro.controller.js:10-12 | a negative number is kept, a numeric string converted, null becomes 0 |
| MacroController.EmptyLog | backend/controllers/macro.controller.js:18-19 | a new day's log has zero totals and no meals, is valid and accounts for its meals |
| MacroController.MealTotalsAppend | backend/controllers/macro.controller.js:21-24 | appending a meal adds its amounts to the sums over the meals |
| MacroController.AddMeal | backend/controllers/macro.controller.js:21-24 | each total grows by the meal's amount; the meal goes at the end and earlier meals are unchanged; totals equal to the meal sums stay equal, and validity is kept |
| MacroController.AddMealCommutesOnTotals | backend/controllers/macro.controller.js:21-23 | two meals give the same totals in either order |
| MacroController.FindLog | backend/controllers/macro.controller.js:17 | the first log in allocation order with that owner and day, or none when there is none |
| MacroController.MacroStore.LogMacros | backend/controllers/macro.controller.js:4-30 | a missing owner, or an amount that fails `min: 0`, writes nothing; otherwise today's log gets the meal added, or a new log is created; other owners' and days' logs are untouched; totals match meals and keys stay unique |
| MacroController.MacroStore.GetTodayMacros | backend/controllers/macro.controller.js:33-45 | unauthorized exactly without an owner; the zero summary when today has no log, its totals and meals otherwise, and the totals are the sums over the meals |
| WaterController.WaterStore.Create | controllers/water.controller.js:4-16 | appends one record with the given user and amount, dated now, under the next id |
| WaterController.WaterStore.Get | controllers/water.controller.js:19-30 | the record with that id, or not found exactly when there is none |
| WaterController.WaterStore.LogWater | controllers/water.controller.js:33-49 | an unknown id is not found and changes nothing; otherwise exactly that record's amount grows by the amount, of either sign |
| UserController.StartOfDay | backend/controllers/user.controller.js:11-15 | local midnight reads 0:00 locally, lies within the day before `t`, and is its own local midnight |
| UserController.CompletedFields | backend/controllers/user.controller.js:29-39 | at most 10 entries count |
| UserController.ProfileCompletion | backend/controllers/user.controller.js:41-42 | the score is 10 times the counted entries and lies in [0, 100] |
| UserController.CalculateProfileCompletion | backend/controllers/user.controller.js:18-43 | the counting loop and the flag checks give exactly that score |
| UserController.CountTruthyMonotone | backend/controllers/user.controller.js:29-32 | more truthy fields never count fewer |
| UserController.CountDefinedMonotone | backend/controllers/user.controller.js:35-39 | more defined flags never count fewer |
| UserController.ProfileCompletionMonotone | backend/controllers/user.controller.js:29-39 | a record whose counted entries include another's scores at least as much |
| UserController.SettingFieldNeverLowers | backend/controllers/user.controller.js:29-32 | making one counted field truthy never lowers the score |
| UserController.CountTruthyFields | backend/controllers/user.controller.js:19-32 | the count is the sum over the seven fields one by one |
| UserController.CountDefinedFlags | backend/controllers/user.controller.js:35-39 | the flag count is the sum over the three flags one by one |
| UserController.NewUserCompletion | backend/controllers/user.controller.js:18-43 | a new user scores 60: the two goals, the theme and three flags |
| UserController.FirstBadIndex | backend/controllers/user.controller.js:80-91 | every numeric key before the position is acceptable and the one at it is not |
| UserController.CheckNumeric | backend/controllers/user.controller.js:80-91 | it fails exactly when a key is bad, with the first bad key's complaint (NaN before negative); otherwise it holds exactly the defined keys, as non-negative numbers |
| UserController.CheckNumericStep | backend/controllers/user.controller.js:81-89 | one more key extends the prefix's result by that key's check |
| UserController.CheckNumericFields | backend/controllers/user.controller.js:80-91 | the loop gives exactly that result |
| UserController.PrefixFirstBad | backend/controllers/user.controller.js:80-91 | a bad key in a prefix is the first bad key of the whole list |
| UserController.PrefixErrorPersists | backend/controllers/user.controller.js:80-91 | once a prefix fails, the whole check fails with the same complaint |
| UserController.FilledNotifications | backend/controllers/user.controller.js:107-113 | the stored flags are exactly push, email and reminders, each given value kept and each missing one true |
| UserController.ThemeAndNotifications | backend/controllers/user.controller.js:94-117 | a theme outside light/dark, then an empty update, fail exactly when they hold; otherwise the numbers are kept and theme and notifications are added exactly when given |
| UserController.ProfileUpdates | backend/controllers/user.controller.js:75-117 | the update fails exactly when a numeric key is bad, the theme is not in the enum, or no field is given; the first bad numeric key, then a bad theme, then no fields, are reported in that order; an accepted update has only allowed keys, the numbers converted, the theme from the enum and the notifications filled |
| UserController.ProfileUpdateZeroAccepted | backend/controllers/user.controller.js:80-90 | an age of 0 is accepted and stored as 0: only negative numbers are refused |
| UserController.ProfileUpdateFirstBadKey | backend/controllers/user.controller.js:80-91 | with a negative weight and a non-numeric age, the age is the one reported |
| UserController.ProfileUpdateNegativeBeforeTheme | backend/controllers/user.controller.js:80-104 | a negative weight is reported before a bad theme |
| UserController.ValidateProfileUpdate | backend/controllers/user.controller.js:74-117 | the handler's loops and checks give exactly that result |
| UserController.ProfileUpdatesKeepIdentity | backend/controllers/user.controller.js:74-117 | an accepted update never sets the name, the email or the score, and any theme is light or dark |
| UserController.PasswordPreCheck | backend/controllers/user.controller.js:246-265 | a missing password, then a new one shorter than 8, then a new one equal to the old, fail in that order and each exactly when it holds |
| UserController.PasswordPreCheckOnStrings | backend/controllers/user.controller.js:246-265 | two strings pass exactly when the old one is not empty, the new one has at least 8 characters and they differ |
| UserController.ShortBeforeUnchanged | backend/controllers/user.controller.js:253-265 | a short new password equal to the old one is reported as short |
| UserController.PublicProfile | backend/controllers/user.controller.js:56 | the profile is the document without `passwordHash` and `__v`, every other key and value kept |
| UserController.UpdatedRecord | backend/controllers/user.controller.js:120-124 | the record has the old keys, the updates and the score; updates win, other keys keep their values, and the score is computed on the merged record |
| UserController.ValidAfterReplace | backend/models/user.model.js:5-6 | replacing a record by a valid one with the same email keeps the documents valid and the emails unique |
| UserController.UpdatedRecordValid | backend/controllers/user.controller.js:120-124 | an update that sets neither name nor email, with a theme from the enum, keeps the record valid and its email |
| UserController.UserStore.GetProfile | backend/controllers/user.controller.js:49-65 | unauthorized exactly without an owner, not found for an unknown one, and the public profile otherwise |
| UserController.UserStore.UpdateProfile | backend/controllers/user.controller.js:67-130 | an owner check, then the validation's error, then a missing user fail without a write; otherwise only that record is replaced by the updated record, and the store stays valid |
| UserController.UserStore.UpdateAvatar | backend/controllers/user.controller.js:136-162 | an avatar that is not a non-empty string fails without a write; otherwise only that record gets the avatar and the recomputed score |
| UserController.UserStore.RemoveAvatar | backend/controllers/user.controller.js:164-185 | only that record gets a null avatar and the recomputed score |
| UserController.UserStore.ChangePassword | backend/controllers/user.controller.js:236-313 | the pre-checks, then an unknown user, then no stored hash, then a wrong old password fail without a write; otherwise only the hash and its date change |
| UserController.TodayWaterNone | backend/controllers/user.controller.js:208-212 | with no record of the user dated today the total is 0 |
| UserController.TodayWaterAfterCreate | backend/controllers/user.controller.js:208-212 | a created record adds its amount exactly when it is the user's and dated today |
| UserController.TodayWaterAfterLog | backend/controllers/user.controller.js:208-212 | adding to a record changes the total by that amount exactly when the record is the user's and dated today |
| UserController.OrZero | backend/controllers/user.controller.js:222-224 | `x \|\| 0` keeps a truthy value and gives 0 otherwise |
| UserController.OrZeroOfNumber | backend/controllers/user.controller.js:222-224 | `\|\| 0` on a converted number agrees with `Js.NumberOrZero`, and applying it twice is applying it once |
| UserController.GetUserStats | backend/controllers/user.controller.js:191-226 | unauthorized exactly without an owner, not found exactly for an unknown user, and successful otherwise; today's calories are 0, today's water is the day's sum from local midnight, and the stored statistics default to 0 |

## Left out

- Authentication: the token middleware is not part of this model. The owner is a parameter that may be missing.
- Password hashing: whether the old password matches the stored hash, and the new hash, are parameters of `ChangePassword`.
- UserController.UserStore.ChangePassword: a password that is not a string, such as the number 12345678, passes the pre-checks because its `length` is undefined. bcrypt then throws and nothing is written, but the model writes the new hash; bcrypt errors on such input are not modelled.
- Concurrency: every handler runs alone. The read-modify-write race of `logMacros` is not modelled.
- Floating point: numbers are exact reals, so binary rounding in `Math.round` and in the products is not modelled. Infinity is not.
- HTTP status codes, response shapes, messages and console logging: each handler returns a result value instead.
- The Harris-Benedict value, the LaTeX strings and the notes text of `calculateMacros`: display only.
- Time zones: local midnight uses a fixed offset from UTC; the host time zone and daylight saving time are not modelled. Date strings are not parsed; a log's date is a number of milliseconds.
- `Number` on strings: exponents, hexadecimal, binary, octal and "Infinity" are not recognised and convert to NaN.
- Object lookups in the activity tables: a name inherited from Object.prototype, such as "toString", finds no row here.
- Nutritive.TargetStore.Save: the snapshot is replaced by the body's values as given. `findOneAndUpdate` drops undefined keys, so in the source an omitted `pal`, `bmr` or `tdee` keeps its earlier value; that merge is not modelled.
- Mongoose internals: `findOneAndUpdate`, `$inc` atomicity, `aggregate` and `timestamps` are not modelled. Casting of `$set` values in the profile updates and the dropping of undefined values are not modelled either. The duplicate-key error 11000 of the log route cannot arise, because no index is unique.
- Arrays in request bodies are treated like plain objects. String length counts code points, not UTF-16 code units.
- A truthy `mealName` or `gender` that is not a string is not modelled; both are optional strings.
- `logout`: it has no logic.
- `backend/models/water.model.js` and `backend/models/macroTarget.model.js` are not part of this model. A water record takes the creation time `now` as its date, and a target snapshot keeps the body's values as given.
- Invalid ids (a malformed ObjectId raising a cast error) are not modelled; ids are natural numbers.
- CalorieRoutes.CalorieService.Log: the note is a string and the items a list of items. A non-string note, or an item whose calories Mongoose cannot cast to a number, is not modelled; neither is a date given as a string.
- WaterController.WaterStore.Create: the amount is a real. An amount that is missing or fails the number cast is not modelled, because the water schema is not part of this model.
- WaterController.WaterStore.LogWater: the amount is a real. A non-numeric amount that fails the cast, and a missing amount (whose `$inc` key Mongoose drops, leaving the record unchanged), are not modelled.
