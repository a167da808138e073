/** The record shapes shared by the Lambda handlers (lambda/src/types.ts). All
    numbers are exact reals; string enums are datatypes. */
module Types {
  import opened Wrappers

  /** JavaScript's `s || fallback` on an optional string: a present,
      non-empty value is kept; a missing or empty one is replaced. */
  function StringOr(s: Option<string>, fallback: string): (r: string)
    ensures s.Some? && s.value != "" ==> r == s.value
    ensures s.None? || s.value == "" ==> r == fallback
  {
    if s.Some? && s.value != "" then s.value else fallback
  }

  /** Grams of each macro-nutrient. */
  datatype MacroNutrients = MacroNutrients(protein: real, carbohydrates: real, fats: real, fiber: real)

  /** The `{ calories, macros }` shape used for table entries, scaled portions,
      meal totals and daily requirements alike. */
  datatype Nutrients = Nutrients(calories: real, macros: MacroNutrients)

  datatype Gender = Male | Female | Other

  datatype ActivityLevel = Sedentary | Light | Moderate | Active | VeryActive

  datatype Goal = WeightLoss | MuscleGain | DiabetesControl | GeneralFitness

  /** Biometrics in years, kilograms and centimetres. */
  datatype UserProfile = UserProfile(
    age: real,
    weight: real,
    height: real,
    gender: Gender,
    activityLevel: ActivityLevel,
    goal: Goal,
    targetWeight: Option<real>,
    targetCalories: Option<real>)

  datatype PortionSize = PortionSize(amount: real, unit: string, confidence: real)

  datatype DetectedFood = DetectedFood(
    name: string,
    confidence: real,
    portionSize: PortionSize,
    nutrition: Nutrients)

  datatype MealType = Breakfast | Lunch | Dinner | Snack

  /** A meal log as the handlers' type declares it: every field but the image
      key and the notes is present. A stored `LogsHandler.LogItem` is one when
      its meal type, foods and every nutrition field are present
      (`LogsHandler.AsMealLog`). */
  datatype MealLog = MealLog(
    logId: string,
    userId: string,
    timestamp: string,
    mealType: MealType,
    foods: seq<DetectedFood>,
    imageKey: Option<string>,
    totalNutrition: Nutrients,
    notes: Option<string>)

  const ZeroMacros := MacroNutrients(0.0, 0.0, 0.0, 0.0)

  const ZeroNutrients := Nutrients(0.0, ZeroMacros)

  function AddMacros(a: MacroNutrients, b: MacroNutrients): MacroNutrients
  {
    MacroNutrients(a.protein + b.protein, a.carbohydrates + b.carbohydrates,
                   a.fats + b.fats, a.fiber + b.fiber)
  }

  function AddNutrients(a: Nutrients, b: Nutrients): Nutrients
  {
    Nutrients(a.calories + b.calories, AddMacros(a.macros, b.macros))
  }

  predicate NonNegativeMacros(m: MacroNutrients)
  {
    m.protein >= 0.0 && m.carbohydrates >= 0.0 && m.fats >= 0.0 && m.fiber >= 0.0
  }

  predicate NonNegative(n: Nutrients)
  {
    n.calories >= 0.0 && NonNegativeMacros(n.macros)
  }
}
