/** The pure parts of lambda/src/handlers/logs.ts: the record `createLog`
    stores, and for `getDailyLog` the one-day timestamp window and the fold of
    the day's meals into one nutrition summary. */
module LogsHandler {
  import opened Wrappers
  import opened Types
  import opened Sums

  /** A stored `macros` object, any field of which may be missing. */
  datatype PartialMacros = PartialMacros(
    protein: Option<real>,
    carbohydrates: Option<real>,
    fats: Option<real>,
    fiber: Option<real>)

  /** A stored `totalNutrition` object, either field of which may be missing. */
  datatype PartialNutrients = PartialNutrients(calories: Option<real>, macros: Option<PartialMacros>)

  /** The body of a create-log request; only its shape is typed, and no value in it is checked. */
  datatype LogRequest = LogRequest(
    timestamp: Option<string>,
    mealType: Option<MealType>,
    foods: Option<seq<DetectedFood>>,
    totalNutrition: Option<PartialNutrients>,
    notes: Option<string>)

  /** The record `createLog` stores and `getDailyLog` reads back. */
  datatype LogItem = LogItem(
    logId: string,
    userId: string,
    timestamp: string,
    mealType: Option<MealType>,
    foods: Option<seq<DetectedFood>>,
    totalNutrition: Option<PartialNutrients>,
    notes: string)

  datatype GoalComparison = GoalComparison(
    caloriesDiff: real,
    proteinDiff: real,
    carbsDiff: real,
    fatsDiff: real,
    onTrack: bool)

  datatype DailyLog = DailyLog(
    date: string,
    userId: string,
    meals: seq<LogItem>,
    totalNutrition: Nutrients,
    goalComparison: GoalComparison)

  /** The caller when the request carries no identity. */
  const TestUser: string := "test-user"

  /** `claims?.sub || 'test-user'`: never empty. */
  function CallerId(sub: Option<string>): (id: string)
    ensures id != ""
    ensures sub.Some? && sub.value != "" ==> id == sub.value
    ensures sub.None? || sub.value == "" ==> id == TestUser
    ensures id == TestUser <==> sub.None? || sub.value == "" || sub.value == TestUser
  {
    StringOr(sub, TestUser)
  }

  // ---------------------------------------------------------------------------
  // createLog

  /** The record stored for a request. `logId` and `now` (the current time as
      an ISO string) come from outside. The meal type, the foods and the
      nutrition are copied unchecked; a missing or empty timestamp becomes
      `now`, missing notes become "". */
  function CreateLog(sub: Option<string>, logId: string, now: string, body: LogRequest): (log: LogItem)
    ensures log.logId == logId && log.userId == CallerId(sub)
    ensures log.mealType == body.mealType && log.foods == body.foods
    ensures log.totalNutrition == body.totalNutrition
    ensures log.notes == body.notes.GetOr("")
    ensures log.timestamp == if body.timestamp.Some? && body.timestamp.value != "" then body.timestamp.value else now
  {
    LogItem(logId, CallerId(sub), StringOr(body.timestamp, now), body.mealType,
            body.foods, body.totalNutrition, StringOr(body.notes, ""))
  }

  // ---------------------------------------------------------------------------
  // The day window

  /** Code-point order on strings; for UTF-8 strings it agrees with the byte
      order the store compares timestamps in. */
  predicate LexLessEq(a: string, b: string)
  {
    if |a| == 0 then true
    else if |b| == 0 then false
    else if a[0] != b[0] then a[0] < b[0]
    else LexLessEq(a[1..], b[1..])
  }

  /** `pathParameters?.date || today`. */
  function ResolveDate(pathDate: Option<string>, today: string): (date: string)
    ensures pathDate.Some? && pathDate.value != "" ==> date == pathDate.value
    ensures pathDate.None? || pathDate.value == "" ==> date == today
  {
    StringOr(pathDate, today)
  }

  /** The first and last millisecond of a day, as ISO time-of-day suffixes. */
  const Midnight: string := "00:00:00.000Z"

  const LastMillisecond: string := "23:59:59.999Z"

  /** `${date}T00:00:00.000Z`. */
  function StartOfDay(date: string): (t: string)
    ensures |t| == |date| + 14 && t[..|date| + 1] == date + "T"
    ensures t[|date| + 1..] == Midnight
  {
    date + "T" + Midnight
  }

  /** `${date}T23:59:59.999Z`. */
  function EndOfDay(date: string): (t: string)
    ensures |t| == |date| + 14 && t[..|date| + 1] == date + "T"
    ensures t[|date| + 1..] == LastMillisecond
  {
    date + "T" + LastMillisecond
  }

  /** A common prefix does not change the order. */
  lemma {:induction false} LexLessEqCommonPrefix(p: string, a: string, b: string)
    ensures LexLessEq(p + a, p + b) <==> LexLessEq(a, b)
    decreases |p|
  {
    if |p| == 0 {
      assert p + a == a && p + b == b;
    } else {
      assert (p + a)[0] == p[0] == (p + b)[0];
      assert (p + a)[1..] == p[1..] + a;
      assert (p + b)[1..] == p[1..] + b;
      LexLessEqCommonPrefix(p[1..], a, b);
    }
  }

  /** Anything between `p + x` and `p + y` (with `x` non-empty) starts with `p`. */
  lemma {:induction false} BetweenSharesPrefix(p: string, x: string, y: string, t: string)
    requires |x| > 0
    requires LexLessEq(p + x, t) && LexLessEq(t, p + y)
    ensures |t| >= |p| && t[..|p|] == p
    decreases |p|
  {
    if |p| > 0 {
      assert (p + x)[0] == p[0] && (p + y)[0] == p[0];
      assert (p + x)[1..] == p[1..] + x;
      assert (p + y)[1..] == p[1..] + y;
      BetweenSharesPrefix(p[1..], x, y, t[1..]);
      assert t == [t[0]] + t[1..];
    }
  }

  /** The window is not empty: its start sorts before its end. */
  lemma WindowOrdered(date: string)
    ensures LexLessEq(StartOfDay(date), EndOfDay(date))
  {
    LexLessEqCommonPrefix(date + "T", Midnight, LastMillisecond);
  }

  /** Every timestamp the window admits is on `date`: it begins with `date`
      followed by "T". */
  lemma WindowHoldsOnlyDate(date: string, t: string)
    requires LexLessEq(StartOfDay(date), t) && LexLessEq(t, EndOfDay(date))
    ensures |t| > |date| && t[..|date| + 1] == date + "T"
  {
    BetweenSharesPrefix(date + "T", Midnight, LastMillisecond, t);
  }

  /** Every timestamp on `date` with a time of day from 00:00:00.000Z to
      23:59:59.999Z is in the window. */
  lemma WindowHoldsWholeDay(date: string, time: string)
    requires LexLessEq(Midnight, time) && LexLessEq(time, LastMillisecond)
    ensures LexLessEq(StartOfDay(date), date + "T" + time)
    ensures LexLessEq(date + "T" + time, EndOfDay(date))
  {
    LexLessEqCommonPrefix(date + "T", Midnight, time);
    LexLessEqCommonPrefix(date + "T", time, LastMillisecond);
  }

  // ---------------------------------------------------------------------------
  // The daily total

  /** What one stored meal adds to the day: each field of its
      `totalNutrition`, 0 where the object or the field is missing. */
  function Contribution(meal: LogItem): (c: Nutrients)
    ensures meal.totalNutrition.None? ==> c == ZeroNutrients
    ensures meal.totalNutrition.Some? ==> c.calories == meal.totalNutrition.value.calories.GetOr(0.0)
    ensures meal.totalNutrition.Some? && meal.totalNutrition.value.macros.None? ==> c.macros == ZeroMacros
    ensures meal.totalNutrition.Some? && meal.totalNutrition.value.macros.Some? ==>
      var m := meal.totalNutrition.value.macros.value;
      && c.macros.protein == m.protein.GetOr(0.0)
      && c.macros.carbohydrates == m.carbohydrates.GetOr(0.0)
      && c.macros.fats == m.fats.GetOr(0.0)
      && c.macros.fiber == m.fiber.GetOr(0.0)
  {
    match meal.totalNutrition
    case None => ZeroNutrients
    case Some(n) =>
      var m := n.macros.GetOr(PartialMacros(None, None, None, None));
      Nutrients(n.calories.GetOr(0.0),
                MacroNutrients(m.protein.GetOr(0.0), m.carbohydrates.GetOr(0.0),
                               m.fats.GetOr(0.0), m.fiber.GetOr(0.0)))
  }

  /** Complete nutrition, as a stored object with every field present. */
  function Stored(n: Nutrients): PartialNutrients
  {
    PartialNutrients(Some(n.calories), Some(PartialMacros(Some(n.macros.protein),
      Some(n.macros.carbohydrates), Some(n.macros.fats), Some(n.macros.fiber))))
  }

  function MealCalories(meal: LogItem): real { Contribution(meal).calories }
  function MealProtein(meal: LogItem): real { Contribution(meal).macros.protein }
  function MealCarbohydrates(meal: LogItem): real { Contribution(meal).macros.carbohydrates }
  function MealFats(meal: LogItem): real { Contribution(meal).macros.fats }
  function MealFiber(meal: LogItem): real { Contribution(meal).macros.fiber }

  /** The `reduce` of `getDailyLog`: from all zeros, each meal's contribution
      added left to right. Each field is the sum of that field over the meals. */
  function DailyTotal(meals: seq<LogItem>): (total: Nutrients)
    ensures total.calories == SumOf(meals, MealCalories)
    ensures total.macros.protein == SumOf(meals, MealProtein)
    ensures total.macros.carbohydrates == SumOf(meals, MealCarbohydrates)
    ensures total.macros.fats == SumOf(meals, MealFats)
    ensures total.macros.fiber == SumOf(meals, MealFiber)
  {
    if |meals| == 0 then ZeroNutrients
    else AddNutrients(DailyTotal(meals[..|meals| - 1]), Contribution(meals[|meals| - 1]))
  }

  /** The daily total does not depend on the order of the meals. */
  lemma DailyTotalIgnoresOrder(meals: seq<LogItem>, reordered: seq<LogItem>)
    requires multiset(meals) == multiset(reordered)
    ensures DailyTotal(meals) == DailyTotal(reordered)
  {
    SumOfPermutation(meals, reordered, MealCalories);
    SumOfPermutation(meals, reordered, MealProtein);
    SumOfPermutation(meals, reordered, MealCarbohydrates);
    SumOfPermutation(meals, reordered, MealFats);
    SumOfPermutation(meals, reordered, MealFiber);
  }

  /** The totals of two batches of meals add up. */
  lemma DailyTotalAppend(a: seq<LogItem>, b: seq<LogItem>)
    ensures DailyTotal(a + b) == AddNutrients(DailyTotal(a), DailyTotal(b))
  {
    SumOfAppend(a, b, MealCalories);
    SumOfAppend(a, b, MealProtein);
    SumOfAppend(a, b, MealCarbohydrates);
    SumOfAppend(a, b, MealFats);
    SumOfAppend(a, b, MealFiber);
  }

  /** A meal logged with complete nutrition `n` adds exactly `n` to its day;
      one logged without nutrition adds nothing. */
  lemma CreatedLogAddsItsNutrition(meals: seq<LogItem>, sub: Option<string>, logId: string, now: string, body: LogRequest)
    ensures body.totalNutrition.None? ==>
      DailyTotal(meals + [CreateLog(sub, logId, now, body)]) == DailyTotal(meals)
    ensures forall n :: body.totalNutrition == Some(Stored(n)) ==>
      DailyTotal(meals + [CreateLog(sub, logId, now, body)]) == AddNutrients(DailyTotal(meals), n)
  {
    var log := CreateLog(sub, logId, now, body);
    assert (meals + [log])[..|meals + [log]| - 1] == meals;
  }

  /** Every field of a stored nutrition object is present. */
  predicate Complete(n: Option<PartialNutrients>)
  {
    && n.Some? && n.value.calories.Some? && n.value.macros.Some?
    && n.value.macros.value.protein.Some? && n.value.macros.value.carbohydrates.Some?
    && n.value.macros.value.fats.Some? && n.value.macros.value.fiber.Some?
  }

  /** A stored item read as the `MealLog` the health score takes: defined
      exactly when the meal type, the foods and every nutrition field are
      present, and then carrying the nutrition the daily total counts for it. */
  function AsMealLog(item: LogItem): (m: Option<MealLog>)
    ensures m.Some? <==> item.mealType.Some? && item.foods.Some? && Complete(item.totalNutrition)
    ensures m.Some? ==>
      && m.value.logId == item.logId && m.value.userId == item.userId
      && m.value.timestamp == item.timestamp && m.value.mealType == item.mealType.value
      && m.value.foods == item.foods.value && m.value.imageKey.None?
      && m.value.notes == Some(item.notes)
      && m.value.totalNutrition == Contribution(item)
  {
    if item.mealType.Some? && item.foods.Some? && Complete(item.totalNutrition) then
      Some(MealLog(item.logId, item.userId, item.timestamp, item.mealType.value,
                   item.foods.value, None, Contribution(item), Some(item.notes)))
    else None
  }

  /** A log created with a meal type, foods and complete nutrition `n` is read
      back as a `MealLog` carrying exactly `n`. */
  lemma CreatedLogIsMealLog(sub: Option<string>, logId: string, now: string, body: LogRequest, n: Nutrients)
    requires body.mealType.Some? && body.foods.Some? && body.totalNutrition == Some(Stored(n))
    ensures AsMealLog(CreateLog(sub, logId, now, body)).Some?
    ensures AsMealLog(CreateLog(sub, logId, now, body)).value.totalNutrition == n
    ensures AsMealLog(CreateLog(sub, logId, now, body)).value.userId == CallerId(sub)
  {
  }

  /** `getDailyLog` after the query: `meals` are the items stored for the
      caller within the day window of the resolved date. The goal comparison
      is a fixed placeholder. */
  function GetDailyLog(sub: Option<string>, pathDate: Option<string>, today: string, meals: seq<LogItem>): (r: DailyLog)
    ensures r.date == ResolveDate(pathDate, today) && r.userId == CallerId(sub) && r.meals == meals
    ensures r.totalNutrition.calories == SumOf(meals, MealCalories)
    ensures r.totalNutrition.macros.protein == SumOf(meals, MealProtein)
    ensures r.totalNutrition.macros.carbohydrates == SumOf(meals, MealCarbohydrates)
    ensures r.totalNutrition.macros.fats == SumOf(meals, MealFats)
    ensures r.totalNutrition.macros.fiber == SumOf(meals, MealFiber)
    ensures meals == [] ==> r.totalNutrition == ZeroNutrients
    ensures r.goalComparison == GoalComparison(0.0, 0.0, 0.0, 0.0, true)
  {
    DailyLog(ResolveDate(pathDate, today), CallerId(sub), meals, DailyTotal(meals),
             GoalComparison(0.0, 0.0, 0.0, 0.0, true))
  }
}
