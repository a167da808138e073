# Nutrition engine of the food-tracking Lambda back end, in Dafny

This project models the deterministic core of a food-tracking service.

- **Estimation.** Image labels from a labeling service become detected foods. Each food is priced from a fixed per-100 g table at a fixed 150 g portion. The foods' nutrition is summed.
- **Daily logs.** Meal logs are stored as sent. A day's logs are folded into one nutrition summary.
- **Requirements.** A user profile gives daily calorie and macro targets by the Mifflin-St Jeor equation.
- **Health score.** The last week's logs are scored 0-100 against those targets, and the score is broken into display components.

All numbers are exact reals. `Round` is JavaScript's `Math.round`: the nearest integer, with halves going toward +infinity (ECMAScript 2022, section 21.3.2.28).

Modules:
- `Wrappers`: the `Option` type.
- `Sums`: left-to-right sums and their append, permutation, sign and constant lemmas.
- `Types`: the records of `lambda/src/types.ts`, and `StringOr`, JavaScript's `||` on an optional string.
- `NutritionUtils`: `lambda/src/utils/nutrition.ts`.
- `FoodHandler`, `LogsHandler`, `HealthHandler`: the pure parts of the three handlers.

Details of the code that the model keeps:
- A nameless label is priced with the name `rice` (lambda/src/handlers/food.ts:36) and shown as `Unknown Food` (lambda/src/handlers/food.ts:39). Both names give the rice entry (`FoodHandler.PricedByDisplayedName`).
- The carbohydrate target is computed from the unrounded protein and fat targets (lambda/src/utils/nutrition.ts:39-41).
- Label confidence is divided by 100 without any check (lambda/src/handlers/food.ts:40). It lies in 0..1 only when the service's confidence lies in 0..100.

## Model

| member | source | states |
|---|---|---|
| `NutritionUtils.Round` | lambda/src/utils/nutrition.ts:60 | `Math.round(x)` is the one integer in (x - 0.5, x + 0.5] |
| `NutritionUtils.RoundTenth` | lambda/src/utils/nutrition.ts:62-65 | `Math.round(x * 10) / 10` has one decimal place and lies in (x - 0.05, x + 0.05] |
| `NutritionUtils.FoodDatabaseWellFormed` | lambda/src/utils/nutrition.ts:3-14 | the table holds `rice`; every entry is non-negative, with whole calories and macros to one decimal place |
| `NutritionUtils.LowerCase` | lambda/src/utils/nutrition.ts:55 | lower-casing keeps the length, maps each character on its own, and leaves only lower-case characters |
| `NutritionUtils.BaseNutrition` | lambda/src/utils/nutrition.ts:55-56 | the entry chosen for a name is non-negative |
| `NutritionUtils.Scale` | lambda/src/utils/nutrition.ts:58-67 | scaled calories are the nearest whole number to base × portion/100; each scaled macro is the nearest tenth |
| `NutritionUtils.ScaleNonNegative` | lambda/src/utils/nutrition.ts:58-65 | a non-negative entry scaled by a portion ≥ 0 gives non-negative fields |
| `NutritionUtils.GetNutritionForFood` | lambda/src/utils/nutrition.ts:54-68 | the looked-up entry scaled and rounded as above; non-negative for any portion ≥ 0; the portion defaults to 100 |
| `NutritionUtils.UnknownFoodIsRice` | lambda/src/utils/nutrition.ts:55-56 | a name whose lower case is not a table key gives exactly the rice result for the same portion |
| `NutritionUtils.LookupIgnoresCase` | lambda/src/utils/nutrition.ts:55 | names equal up to letter case give identical results, and a name gives the result of its lower-case form |
| `NutritionUtils.DefaultPortionIsTableEntry` | lambda/src/utils/nutrition.ts:54-65 | at the default 100 g, a table entry comes back unchanged |
| `NutritionUtils.ChickenPortion` | lambda/src/utils/nutrition.ts:54-68 | 150 g of chicken is 248 kcal, 46.5 g protein, 0 g carbohydrates, 5.4 g fat, 0 g fiber |
| `NutritionUtils.ReadProperty` | lambda/src/utils/nutrition.ts:56 | reading a plain object finds an own entry exactly for table keys, an inherited member exactly for the `Object.prototype` names outside the table, and `undefined` otherwise |
| `NutritionUtils.GetNutritionAsWritten` | lambda/src/utils/nutrition.ts:55-66 | the lookup as written on a plain object throws exactly when the lower-cased name is `constructor` or `__proto__`; everywhere else it agrees with `GetNutritionForFood` |
| `NutritionUtils.ConstructorNameThrows` | lambda/src/utils/nutrition.ts:56 | `Constructor` makes the as-written lookup throw, where the rice fallback was meant |
| `NutritionUtils.Bmr` | lambda/src/utils/nutrition.ts:19-24 | Mifflin-St Jeor: 10 per kg plus 6.25 per cm minus 5 per year, then +5 for male and -161 for female and other |
| `NutritionUtils.ActivityMultiplier` | lambda/src/utils/nutrition.ts:26-32 | the multiplier lies in [1.2, 1.9], is 1.2 exactly for sedentary and 1.9 exactly for very active |
| `NutritionUtils.Tdee` | lambda/src/utils/nutrition.ts:34-37 | daily energy is BMR times the activity multiplier, less 500 for weight loss, plus 300 for muscle gain, unchanged for the other goals |
| `NutritionUtils.MacroTargets` | lambda/src/utils/nutrition.ts:39-41 | protein is 1.6 g/kg; fats carry a quarter of the energy; at 4/4/9 kcal per gram the split accounts for all the daily energy |
| `NutritionUtils.CalculateDailyRequirements` | lambda/src/utils/nutrition.ts:16-52 | calories, protein, carbohydrates and fats are the nearest whole numbers to the daily energy and the macro targets; fiber is 25 |
| `NutritionUtils.OtherGenderAsFemale` | lambda/src/utils/nutrition.ts:20-24 | `other` and `female` give identical requirements |
| `NutritionUtils.ProteinAndFiberFromWeightOnly` | lambda/src/utils/nutrition.ts:39-49 | equal weights give equal protein targets whatever the other fields; fiber is always 25 |
| `NutritionUtils.GoalAdjustment` | lambda/src/utils/nutrition.ts:34-37 | against `general_fitness`, `weight_loss` has 500 fewer calories and `muscle_gain` 300 more |
| `NutritionUtils.DiabetesControlAsGeneralFitness` | lambda/src/utils/nutrition.ts:36-37 | `diabetes_control` gives exactly the `general_fitness` requirements |
| `NutritionUtils.RequirementCalories` | lambda/src/utils/nutrition.ts:44 | the calorie target is the daily energy passed through `Math.round` |
| `NutritionUtils.ReferenceProfileRequirements` | lambda/src/utils/nutrition.ts:16-52 | male, 30 years, 70 kg, 175 cm, moderate, general fitness gives 2556 kcal, 112 g protein, 367 g carbohydrates, 71 g fat, 25 g fiber |
| `NutritionUtils.Balance` | lambda/src/utils/nutrition.ts:74-77 | each balance lies in [0, 100] and is 100 exactly when the average hits the target |
| `NutritionUtils.Consistency` | lambda/src/utils/nutrition.ts:79 | consistency lies in [0, 100] and is 100 exactly when there are 7 or more entries, counting entries and not days |
| `NutritionUtils.CalculateHealthScore` | lambda/src/utils/nutrition.ts:70-82 | an empty window scores 50; every score lies in [0, 100] |
| `NutritionUtils.HealthScoreIgnoresOrder` | lambda/src/utils/nutrition.ts:73-81 | reordering the logs does not change the score |
| `NutritionUtils.OnTargetWindowScoresFull` | lambda/src/utils/nutrition.ts:73-81 | seven or more logs, each on the calorie and protein targets, score 100 |
| `NutritionUtils.SevenLogsScore` | lambda/src/utils/nutrition.ts:70-82 | seven logs of 2000 kcal and 100 g protein against 2500 kcal and 112 g score 78 |
| `FoodHandler.FoodLabels` | lambda/src/handlers/food.ts:30-32 | a label is kept exactly when one of its categories is Food, Dish, Meal or Cuisine |
| `FoodHandler.FoodLabelsAppend` | lambda/src/handlers/food.ts:30-32 | the filter keeps input order: filtering a concatenation concatenates the filtered parts |
| `FoodHandler.ToDetectedFood` | lambda/src/handlers/food.ts:35-47 | the name is the label's name, or Unknown Food when it is missing or empty, and such a nameless food is priced as 150 g of rice; portion is 150 grams at confidence 0.7; nutrition is the lookup of the displayed name at 150 g; confidence is the label's confidence / 100, or 0 when absent, and lies in [0, 1] for a label confidence in [0, 100] |
| `FoodHandler.PricedByDisplayedName` | lambda/src/handlers/food.ts:36-39 | pricing by `name \|\| 'rice'` equals pricing by the displayed `name \|\| 'Unknown Food'`; for a missing or empty name, pricing Unknown Food gives the rice result |
| `FoodHandler.DetectFoods` | lambda/src/handlers/food.ts:34-48 | at most 5 foods; the i-th food comes from the i-th surviving label, in input order |
| `FoodHandler.LaterLabelsIgnored` | lambda/src/handlers/food.ts:34 | after five food labels, later labels change nothing, whatever their confidence |
| `FoodHandler.NoFoodLabelsNoFoods` | lambda/src/handlers/food.ts:30-34 | labels with no food category give no detected food |
| `FoodHandler.TotalCalories` | lambda/src/handlers/food.ts:50 | no food gives 0 kcal; foods with non-negative calories give a non-negative total |
| `FoodHandler.TotalMacros` | lambda/src/handlers/food.ts:51-56 | each macro total is the sum of that macro over the foods |
| `FoodHandler.TotalsIgnoreOrder` | lambda/src/handlers/food.ts:50-56 | the calorie and macro totals do not depend on food order |
| `FoodHandler.TotalsAppend` | lambda/src/handlers/food.ts:50-56 | the calorie total and each macro total of two batches of foods add up |
| `FoodHandler.OverallConfidence` | lambda/src/handlers/food.ts:66 | overall confidence is the first food's confidence, or 0 with no food |
| `FoodHandler.AnalyzeImage` | lambda/src/handlers/food.ts:30-66 | keeps the image id and timestamp; the foods are those detected from the labels (none when the service returns no label list), at most 5; the totals are the non-negative sums over them; no food (including no labels) gives zero totals and confidence 0 |
| `Types.StringOr` | lambda/src/handlers/logs.ts:21 | `s \|\| fallback` keeps a present, non-empty string and gives the fallback for a missing or empty one |
| `LogsHandler.CallerId` | lambda/src/handlers/logs.ts:11 | the user id is the claim's subject when present and non-empty, otherwise `test-user`; it is never empty, and is `test-user` exactly when the subject is missing, empty or `test-user` |
| `LogsHandler.CreateLog` | lambda/src/handlers/logs.ts:14-22 | meal type, foods and nutrition are copied from the body; notes default to ""; a missing or empty timestamp becomes the current time |
| `LogsHandler.ResolveDate` | lambda/src/handlers/logs.ts:47 | the day is the path's date when present and non-empty, otherwise today |
| `LogsHandler.StartOfDay` | lambda/src/handlers/logs.ts:49 | the window's start is the date, `T`, then the first millisecond 00:00:00.000Z |
| `LogsHandler.EndOfDay` | lambda/src/handlers/logs.ts:50 | the window's end is the date, `T`, then the last millisecond 23:59:59.999Z |
| `LogsHandler.WindowOrdered` | lambda/src/handlers/logs.ts:49-50 | the window's start sorts before its end |
| `LogsHandler.WindowHoldsOnlyDate` | lambda/src/handlers/logs.ts:49-50 | every timestamp between `date`T00:00:00.000Z and `date`T23:59:59.999Z begins with `date`T |
| `LogsHandler.WindowHoldsWholeDay` | lambda/src/handlers/logs.ts:49-50 | every `date`T`time` with a time of day from 00:00:00.000Z to 23:59:59.999Z is in the window |
| `LogsHandler.Contribution` | lambda/src/handlers/logs.ts:65-70 | a meal without `totalNutrition` adds nothing; otherwise it adds its calories and each of its macros, a missing field (or all macros when `macros` is missing) counting 0 |
| `LogsHandler.DailyTotal` | lambda/src/handlers/logs.ts:63-72 | each field of the daily total is the sum of that field over the meals, a missing field counting 0 |
| `LogsHandler.DailyTotalIgnoresOrder` | lambda/src/handlers/logs.ts:64-72 | the daily total does not depend on meal order |
| `LogsHandler.DailyTotalAppend` | lambda/src/handlers/logs.ts:64-72 | the totals of two batches of meals add up |
| `LogsHandler.CreatedLogAddsItsNutrition` | lambda/src/handlers/logs.ts:14-22 | a log created with complete nutrition n adds exactly n to its day's total; one created without nutrition adds nothing |
| `LogsHandler.AsMealLog` | lambda/src/handlers/logs.ts:14-22 | a stored item is a complete meal log exactly when its meal type, foods and every nutrition field are present; it then keeps the item's ids, timestamp, meal type, foods and notes, and carries the nutrition the daily total counts for it |
| `LogsHandler.CreatedLogIsMealLog` | lambda/src/handlers/logs.ts:14-22 | a log created with a meal type, foods and complete nutrition n reads back as a meal log of the caller with nutrition exactly n |
| `LogsHandler.GetDailyLog` | lambda/src/handlers/logs.ts:46-90 | the totals are the per-field sums over the meals; no meals give all zeros; the goal comparison is all-zero diffs with onTrack true |
| `HealthHandler.Breakdown` | lambda/src/handlers/health.ts:50-53 | each component is the integer in (p - 0.5, p + 0.5] for p = 40/30/20/10 % of overall, i.e. that share passed through `Math.round`; for overall in [0, 100] they stay within 40, 30, 20 and 10; their sum lies between overall - 1 and overall + 2 |
| `HealthHandler.NeutralBreakdown` | lambda/src/handlers/health.ts:50-53 | overall 50 is shown as 20, 15, 10, 5 |
| `HealthHandler.BreakdownNeedNotSumToOverall` | lambda/src/handlers/health.ts:50-53 | overall 5 is shown as 2, 2, 1, 1, which sum to 6 |
| `HealthHandler.GetHealthScore` | lambda/src/handlers/health.ts:18-54 | no profile gives not-found and no score; otherwise overall is the health score of the logs against the profile's requirements, lies in [0, 100], and carries the breakdown of overall and the current time; no logs give 50 with components 20, 15, 10, 5 |
| `HealthHandler.BreakdownIgnoresSubScores` | lambda/src/handlers/health.ts:42-53 | the displayed components are not the sub-scores: a weighted calorie balance of 20 in an overall 78 is shown as 31 |

## Findings

| source | as written | input that shows it | evidently intended | confidence | as-written member | corrected member |
|---|---|---|---|---|---|---|
| lambda/src/utils/nutrition.ts:56 | `FOOD_DATABASE[normalized]` reads a plain object, so it also finds members inherited from `Object.prototype`. For `constructor` and `__proto__` that member is truthy, so `\|\| FOOD_DATABASE.rice` keeps it, and reading `.macros.protein` from it throws a TypeError. | `getNutritionForFood("Constructor", 150)` | every name outside the table is priced as rice | high (not executed) | `NutritionUtils.GetNutritionAsWritten`, `NutritionUtils.ConstructorNameThrows` | `NutritionUtils.GetNutritionForFood` |

## Left out

- Cloud calls are not modelled: the S3 upload, the Rekognition `DetectLabels` request (with its `MaxLabels` 10 and `MinConfidence` 70) and the DynamoDB get, put and query. Their results are inputs: the label list, the stored profile, the queried meals.
- Identifiers and clocks are parameters, not generated: `uuidv4()`, `new Date().toISOString()`, today's date and the "seven days ago" bound of the health query.
- The image key, base64 decoding, JSON (de)serialisation, CORS headers, status codes other than the 404 outcome, and the `try`/`catch` paths that answer 500 are not modelled.
- Floating point is not modelled: IEEE-754 rounding of intermediate products (so `3.6 * 1.5 * 10` is exactly 54 here) and of sums, NaN, and the way `|| 0` turns NaN into 0. Sums here are exact and so associative, which is what `FoodHandler.TotalsIgnoreOrder`, `LogsHandler.DailyTotalIgnoresOrder` and `NutritionUtils.HealthScoreIgnoresOrder` rely on; in doubles `0.1 + 0.2 + 0.3` and `0.3 + 0.2 + 0.1` differ.
- NutritionUtils.LowerCase: folds only A-Z and the Kelvin sign (U+212A). Every other character is kept. Its JavaScript lower case is either itself or contains a non-ASCII character, so the table lookup gives the same entry; the lower-cased string itself is not modelled beyond that.
- NutritionUtils.CalculateHealthScore: takes complete `MealLog` records. A stored item without `totalNutrition` or `macros` makes the source throw, and one without `calories` or `protein` gives NaN; neither is modelled.
- FoodHandler.ToDetectedFood: prices with the corrected lookup, so a label named `Constructor` is priced as rice, where the source throws and the handler answers 500.
- FoodHandler.AnalyzeImage: built on the corrected lookup, so it returns an analysis for a `Constructor` label, where the source answers 500.
- A label's categories are taken as their names. A category without a name never matches a food category, so it is left out.
- The user-profile handlers (`lambda/src/handlers/users.ts`) and the whole front end are not part of this model.
