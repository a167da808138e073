/** The nutrition engine of lambda/src/utils/nutrition.ts: the fixed per-100 g
    table, portion scaling, the daily requirement calculator and the health
    score. Every number is an exact real; `Round` is JavaScript's `Math.round`. */
module NutritionUtils {
  import opened Wrappers
  import opened Types
  import opened Sums

  // ---------------------------------------------------------------------------
  // Rounding

  /** `Math.round`: the nearest integer, halves going toward +infinity. */
  function Round(x: real): (r: int)
    ensures x - 0.5 < r as real <= x + 0.5
  {
    (x + 0.5).Floor
  }

  /** The only integer within (x - 0.5, x + 0.5] is `Round(x)`. */
  lemma RoundUnique(x: real, n: int)
    requires x - 0.5 < n as real <= x + 0.5
    ensures Round(x) == n
  {
  }

  /** Shifting the argument by a whole number shifts the result by it. */
  lemma RoundShift(x: real, n: int)
    ensures Round(x + n as real) == Round(x) + n
  {
    RoundUnique(x + n as real, Round(x) + n);
  }

  /** `Math.round(x * 10) / 10`: rounding to one decimal place. */
  function RoundTenth(x: real): (r: real)
    ensures x - 0.05 < r <= x + 0.05
    ensures IsTenths(r)
  {
    var n := Round(x * 10.0);
    assert (n as real / 10.0) * 10.0 == n as real;
    n as real / 10.0
  }

  predicate IsWhole(x: real)
  {
    x.Floor as real == x
  }

  predicate IsTenths(x: real)
  {
    IsWhole(x * 10.0)
  }

  /** A value that already has one decimal place survives `RoundTenth`. */
  lemma RoundTenthOfTenths(x: real)
    requires IsTenths(x)
    ensures RoundTenth(x) == x
  {
    RoundUnique(x * 10.0, (x * 10.0).Floor);
  }

  // ---------------------------------------------------------------------------
  // The food table

  /** Calories and macros per 100 g. */
  const FoodDatabase: map<string, Nutrients> := map[
    "rice"    := Nutrients(130.0, MacroNutrients(2.7, 28.0, 0.3, 0.4)),
    "chicken" := Nutrients(165.0, MacroNutrients(31.0, 0.0, 3.6, 0.0)),
    "bread"   := Nutrients(265.0, MacroNutrients(9.0, 49.0, 3.2, 2.7)),
    "egg"     := Nutrients(155.0, MacroNutrients(13.0, 1.1, 11.0, 0.0)),
    "banana"  := Nutrients(89.0, MacroNutrients(1.1, 23.0, 0.3, 2.6)),
    "apple"   := Nutrients(52.0, MacroNutrients(0.3, 14.0, 0.2, 2.4)),
    "milk"    := Nutrients(42.0, MacroNutrients(3.4, 5.0, 1.0, 0.0)),
    "potato"  := Nutrients(77.0, MacroNutrients(2.0, 17.0, 0.1, 2.2)),
    "fish"    := Nutrients(206.0, MacroNutrients(22.0, 0.0, 12.0, 0.0)),
    "pasta"   := Nutrients(131.0, MacroNutrients(5.0, 25.0, 1.1, 1.8))
  ]

  /** The entry used for every name the table does not hold. */
  const FallbackFood: string := "rice"

  /** The portion `getNutritionForFood` assumes when none is given. */
  const DefaultPortionGrams: real := 100.0

  /** Every table entry is non-negative, with whole calories and macros to one
      decimal place. */
  lemma FoodDatabaseWellFormed()
    ensures FallbackFood in FoodDatabase
    ensures forall k :: k in FoodDatabase ==> NonNegative(FoodDatabase[k])
    ensures forall k :: k in FoodDatabase ==> IsWhole(FoodDatabase[k].calories)
    ensures forall k :: k in FoodDatabase ==> TableMacrosInTenths(FoodDatabase[k].macros)
  {
  }

  predicate TableMacrosInTenths(m: MacroNutrients)
  {
    IsTenths(m.protein) && IsTenths(m.carbohydrates) && IsTenths(m.fats) && IsTenths(m.fiber)
  }

  // ---------------------------------------------------------------------------
  // Lower-casing

  /** `toLowerCase` on one character, for the characters whose lower case is an
      ASCII letter: A-Z and the Kelvin sign. Every other character is kept; its
      JavaScript lower case is either itself or holds a non-ASCII character, so
      in either case the name cannot be a table key. */
  function LowerChar(c: char): char
  {
    if 'A' <= c <= 'Z' then (c as int - 'A' as int + 'a' as int) as char
    else if c == '\U{212A}' then 'k'
    else c
  }

  predicate IsLowerChar(c: char)
  {
    LowerChar(c) == c
  }

  /** `toLowerCase`, character by character. */
  function LowerCase(s: string): (r: string)
    ensures |r| == |s|
    ensures forall i {:trigger r[i]} :: 0 <= i < |s| ==> r[i] == LowerChar(s[i]) && IsLowerChar(r[i])
  {
    if |s| == 0 then [] else [LowerChar(s[0])] + LowerCase(s[1..])
  }

  /** Lower-casing twice is lower-casing once. */
  lemma LowerCaseIdempotent(s: string)
    ensures LowerCase(LowerCase(s)) == LowerCase(s)
  {
  }

  /** A name already in lower case is its own lower case; so is every table key. */
  lemma LowerCaseOfLower(s: string)
    requires forall i :: 0 <= i < |s| ==> IsLowerChar(s[i])
    ensures LowerCase(s) == s
  {
  }

  lemma TableKeysAreLowerCase()
    ensures forall k :: k in FoodDatabase ==> LowerCase(k) == k
  {
    forall k | k in FoodDatabase
      ensures LowerCase(k) == k
    {
      LowerCaseOfLower(k);
    }
  }

  // ---------------------------------------------------------------------------
  // Lookup and scaling

  /** `FOOD_DATABASE[normalized] || FOOD_DATABASE.rice`, reading only the
      table's own entries. */
  function BaseNutrition(foodName: string): (base: Nutrients)
    ensures NonNegative(base)
  {
    FoodDatabaseWellFormed();
    var key := LowerCase(foodName);
    if key in FoodDatabase then FoodDatabase[key] else FoodDatabase[FallbackFood]
  }

  /** A product of non-negative reals is non-negative. */
  lemma MulNonNegative(a: real, b: real)
    requires a >= 0.0 && b >= 0.0
    ensures a * b >= 0.0
  {
  }

  /** `r` is `base` scaled to `portionGrams` and rounded: calories to the
      nearest whole number, each macro to the nearest tenth. */
  predicate RoundedScaling(base: Nutrients, portionGrams: real, r: Nutrients)
  {
    var m := portionGrams / 100.0;
    && IsWhole(r.calories)
    && base.calories * m - 0.5 < r.calories <= base.calories * m + 0.5
    && TableMacrosInTenths(r.macros)
    && base.macros.protein * m - 0.05 < r.macros.protein <= base.macros.protein * m + 0.05
    && base.macros.carbohydrates * m - 0.05 < r.macros.carbohydrates <= base.macros.carbohydrates * m + 0.05
    && base.macros.fats * m - 0.05 < r.macros.fats <= base.macros.fats * m + 0.05
    && base.macros.fiber * m - 0.05 < r.macros.fiber <= base.macros.fiber * m + 0.05
  }

  /** Scales a per-100 g entry to `portionGrams`: calories to whole numbers,
      macros to one decimal place. */
  function Scale(base: Nutrients, portionGrams: real): (r: Nutrients)
    ensures RoundedScaling(base, portionGrams, r)
  {
    var multiplier := portionGrams / 100.0;
    var calories := Round(base.calories * multiplier);
    assert (calories as real).Floor == calories;
    Nutrients(
      calories as real,
      MacroNutrients(
        RoundTenth(base.macros.protein * multiplier),
        RoundTenth(base.macros.carbohydrates * multiplier),
        RoundTenth(base.macros.fats * multiplier),
        RoundTenth(base.macros.fiber * multiplier)))
  }

  /** Scaling a non-negative entry by a non-negative portion gives non-negative values. */
  lemma ScaleNonNegative(base: Nutrients, portionGrams: real)
    requires NonNegative(base)
    ensures portionGrams >= 0.0 ==> NonNegative(Scale(base, portionGrams))
  {
    if portionGrams < 0.0 { return; }
    var m := portionGrams / 100.0;
    MulNonNegative(base.calories, m);
    MulNonNegative(base.macros.protein, m);
    MulNonNegative(base.macros.carbohydrates, m);
    MulNonNegative(base.macros.fats, m);
    MulNonNegative(base.macros.fiber, m);
  }

  /** Calories and macros of `portionGrams` of the named food. Each output field
      is the exact scaled value rounded: calories to the nearest whole number,
      macros to the nearest tenth; a non-negative portion gives non-negative
      values. */
  function GetNutritionForFood(foodName: string, portionGrams: real := DefaultPortionGrams): (r: Nutrients)
    ensures RoundedScaling(BaseNutrition(foodName), portionGrams, r)
    ensures portionGrams >= 0.0 ==> NonNegative(r)
  {
    var base := BaseNutrition(foodName);
    ScaleNonNegative(base, portionGrams);
    Scale(base, portionGrams)
  }

  /** A name the table does not hold (after lower-casing) is priced as rice. */
  lemma UnknownFoodIsRice(foodName: string, portionGrams: real)
    requires LowerCase(foodName) !in FoodDatabase
    ensures GetNutritionForFood(foodName, portionGrams) == GetNutritionForFood(FallbackFood, portionGrams)
  {
    TableKeysAreLowerCase();
  }

  /** Names that differ only in letter case are priced alike, and a name is
      priced as its lower-case form. */
  lemma LookupIgnoresCase(a: string, b: string, portionGrams: real)
    requires |a| == |b|
    requires forall i :: 0 <= i < |a| ==> LowerChar(a[i]) == LowerChar(b[i])
    ensures GetNutritionForFood(a, portionGrams) == GetNutritionForFood(b, portionGrams)
    ensures GetNutritionForFood(a, portionGrams) == GetNutritionForFood(LowerCase(a), portionGrams)
  {
    assert LowerCase(a) == LowerCase(b);
    LowerCaseIdempotent(a);
  }

  /** At the default portion of 100 g a table entry comes back unchanged. */
  lemma DefaultPortionIsTableEntry(foodName: string)
    requires LowerCase(foodName) in FoodDatabase
    ensures GetNutritionForFood(foodName) == FoodDatabase[LowerCase(foodName)]
  {
    FoodDatabaseWellFormed();
    var e := FoodDatabase[LowerCase(foodName)];
    RoundUnique(e.calories, e.calories.Floor);
    RoundTenthOfTenths(e.macros.protein);
    RoundTenthOfTenths(e.macros.carbohydrates);
    RoundTenthOfTenths(e.macros.fats);
    RoundTenthOfTenths(e.macros.fiber);
  }

  /** 150 g of chicken: 248 kcal, 46.5 g protein, 5.4 g fat. */
  lemma ChickenPortion()
    ensures GetNutritionForFood("chicken", 150.0) == Nutrients(248.0, MacroNutrients(46.5, 0.0, 5.4, 0.0))
  {
    assert BaseNutrition("chicken") == Nutrients(165.0, MacroNutrients(31.0, 0.0, 3.6, 0.0)) by {
      LowerCaseOfLower("chicken");
    }
    ChickenEntryScaled();
  }

  /** The chicken entry scaled to 150 g. */
  lemma ChickenEntryScaled()
    ensures Scale(Nutrients(165.0, MacroNutrients(31.0, 0.0, 3.6, 0.0)), 150.0)
         == Nutrients(248.0, MacroNutrients(46.5, 0.0, 5.4, 0.0))
  {
    assert 150.0 / 100.0 == 1.5;
    RoundUnique(165.0 * 1.5, 248);
    RoundUnique(31.0 * 1.5 * 10.0, 465);
    RoundUnique(0.0 * 1.5 * 10.0, 0);
    RoundUnique(3.6 * 1.5 * 10.0, 54);
  }

  // ---------------------------------------------------------------------------
  // The lookup as written: a property read on a plain object literal

  /** The members a plain JavaScript object inherits from `Object.prototype`. */
  const ObjectPrototypeMembers: set<string> := {
    "constructor", "hasOwnProperty", "isPrototypeOf", "propertyIsEnumerable",
    "toLocaleString", "toString", "valueOf", "__proto__",
    "__defineGetter__", "__defineSetter__", "__lookupGetter__", "__lookupSetter__"
  }

  /** What `FOOD_DATABASE[key]` yields: an own entry, an inherited member (a
      truthy value with no `macros`), or `undefined`. */
  datatype PropertyRead = OwnEntry(entry: Nutrients) | InheritedMember | Undefined

  function ReadProperty(key: string): (r: PropertyRead)
    ensures r.OwnEntry? <==> key in FoodDatabase
    ensures r.OwnEntry? ==> r.entry == FoodDatabase[key]
    ensures r.InheritedMember? <==> key !in FoodDatabase && key in ObjectPrototypeMembers
    ensures r.Undefined? <==> key !in FoodDatabase && key !in ObjectPrototypeMembers
  {
    if key in FoodDatabase then OwnEntry(FoodDatabase[key])
    else if key in ObjectPrototypeMembers then InheritedMember
    else Undefined
  }

  /** A lower-case name can only meet the two inherited members spelt in lower case. */
  lemma LowerNamesMissCamelCaseMembers(key: string)
    requires forall i :: 0 <= i < |key| ==> IsLowerChar(key[i])
    ensures key in ObjectPrototypeMembers ==> key == "constructor" || key == "__proto__"
  {
    assert key != "hasOwnProperty" by { if |key| > 3 { assert IsLowerChar(key[3]); } }
    assert key != "isPrototypeOf" by { if |key| > 2 { assert IsLowerChar(key[2]); } }
    assert key != "propertyIsEnumerable" by { if |key| > 8 { assert IsLowerChar(key[8]); } }
    assert key != "toLocaleString" by { if |key| > 2 { assert IsLowerChar(key[2]); } }
    assert key != "toString" by { if |key| > 2 { assert IsLowerChar(key[2]); } }
    assert key != "valueOf" by { if |key| > 5 { assert IsLowerChar(key[5]); } }
    assert key != "__defineGetter__" by { if |key| > 8 { assert IsLowerChar(key[8]); } }
    assert key != "__defineSetter__" by { if |key| > 8 { assert IsLowerChar(key[8]); } }
    assert key != "__lookupGetter__" by { if |key| > 8 { assert IsLowerChar(key[8]); } }
    assert key != "__lookupSetter__" by { if |key| > 8 { assert IsLowerChar(key[8]); } }
  }

  /** `getNutritionForFood` as written. An inherited member is truthy, so `||`
      keeps it, and reading `.macros.protein` from it throws; `None` stands for
      that throw. It fails exactly on the two lower-case inherited names and
      agrees with `GetNutritionForFood` everywhere else. */
  function GetNutritionAsWritten(foodName: string, portionGrams: real): (r: Option<Nutrients>)
    ensures r.None? <==> LowerCase(foodName) in {"constructor", "__proto__"}
    ensures r.Some? ==> r.value == GetNutritionForFood(foodName, portionGrams)
  {
    var key := LowerCase(foodName);
    LowerNamesMissCamelCaseMembers(key);
    match ReadProperty(key)
    case OwnEntry(e) => Some(Scale(e, portionGrams))
    case Undefined => Some(Scale(FoodDatabase[FallbackFood], portionGrams))
    case InheritedMember => None
  }

  /** Lower-casing works piecewise. */
  lemma LowerCaseAppend(a: string, b: string)
    ensures LowerCase(a + b) == LowerCase(a) + LowerCase(b)
  {
  }

  lemma LowerCaseConstructor()
    ensures LowerCase("Constructor") == "constructor"
  {
    var head, tail := "C" + "onstr", "uctor";
    LowerCaseConstr();
    LowerCaseOfLower(tail);
    LowerCaseSplit(head, tail, "constr", tail);
    assert head + tail == "Constructor";
    assert "constr" + tail == "constructor";
  }

  lemma LowerCaseConstr()
    ensures LowerCase("C" + "onstr") == "constr"
  {
    LowerCaseAppend("C", "onstr");
    LowerCaseOfLower("onstr");
    assert LowerCase("C") == "c";
  }

  lemma LowerCaseSplit(a: string, b: string, la: string, lb: string)
    requires LowerCase(a) == la && LowerCase(b) == lb
    ensures LowerCase(a + b) == la + lb
  {
    LowerCaseAppend(a, b);
  }

  /** Every table key has at most seven characters. */
  lemma TableKeysShorterThan(name: string)
    requires |name| > 7
    ensures name !in FoodDatabase
  {
    assert forall k :: k in FoodDatabase ==> |k| <= 7;
  }

  /** A label named "Constructor" makes the lookup as written throw, where the
      rice fallback was meant. */
  lemma ConstructorNameThrows()
    ensures GetNutritionAsWritten("Constructor", 150.0).None?
    ensures GetNutritionForFood("Constructor", 150.0) == GetNutritionForFood(FallbackFood, 150.0)
  {
    LowerCaseConstructor();
    TableKeysShorterThan("constructor");
    UnknownFoodIsRice("Constructor", 150.0);
  }

  // ---------------------------------------------------------------------------
  // Daily requirements

  /** Mifflin-St Jeor basal metabolic rate; only `Male` takes the +5 offset,
      `Female` and `Other` both take -161. */
  function Bmr(profile: UserProfile): (bmr: real)
    ensures var core := 10.0 * profile.weight + 6.25 * profile.height - 5.0 * profile.age;
      && (profile.gender == Male ==> bmr == core + 5.0)
      && (profile.gender != Male ==> bmr == core - 161.0)
  {
    if profile.gender == Male then
      10.0 * profile.weight + 6.25 * profile.height - 5.0 * profile.age + 5.0
    else
      10.0 * profile.weight + 6.25 * profile.height - 5.0 * profile.age - 161.0
  }

  function ActivityMultiplier(level: ActivityLevel): (m: real)
    ensures 1.2 <= m <= 1.9
    ensures m == 1.2 <==> level == Sedentary
    ensures m == 1.9 <==> level == VeryActive
  {
    match level
    case Sedentary => 1.2
    case Light => 1.375
    case Moderate => 1.55
    case Active => 1.725
    case VeryActive => 1.9
  }

  /** Daily energy: BMR times the activity multiplier, less 500 kcal to lose
      weight, plus 300 kcal to gain muscle. */
  function Tdee(profile: UserProfile): (tdee: real)
    ensures var energy := Bmr(profile) * ActivityMultiplier(profile.activityLevel);
      && (profile.goal == WeightLoss ==> tdee == energy - 500.0)
      && (profile.goal == MuscleGain ==> tdee == energy + 300.0)
      && (profile.goal == DiabetesControl || profile.goal == GeneralFitness ==> tdee == energy)
  {
    var tdee := Bmr(profile) * ActivityMultiplier(profile.activityLevel);
    if profile.goal == WeightLoss then tdee - 500.0
    else if profile.goal == MuscleGain then tdee + 300.0
    else tdee
  }

  /** The unrounded macro targets: 1.6 g protein per kg, fats a quarter of the
      energy, carbohydrates the energy left over, 25 g fiber. With 4 kcal per
      gram of protein and carbohydrate and 9 per gram of fat, the split accounts
      for exactly the whole daily energy. */
  function MacroTargets(weight: real, tdee: real): (m: MacroNutrients)
    ensures 4.0 * m.protein + 4.0 * m.carbohydrates + 9.0 * m.fats == tdee
    ensures 9.0 * m.fats == 0.25 * tdee
    ensures m.protein == 1.6 * weight && m.fiber == 25.0
  {
    var protein := weight * 1.6;
    var fats := (tdee * 0.25) / 9.0;
    var carbohydrates := (tdee - (protein * 4.0 + fats * 9.0)) / 4.0;
    MacroNutrients(protein, carbohydrates, fats, 25.0)
  }

  /** `calculateDailyRequirements`: the daily energy and the macro targets,
      each rounded to the nearest whole number; fiber stays 25. */
  function CalculateDailyRequirements(profile: UserProfile): (r: Nutrients)
    ensures IsWhole(r.calories) && Tdee(profile) - 0.5 < r.calories <= Tdee(profile) + 0.5
    ensures var m := MacroTargets(profile.weight, Tdee(profile));
      && IsWhole(r.macros.protein) && m.protein - 0.5 < r.macros.protein <= m.protein + 0.5
      && IsWhole(r.macros.carbohydrates) && m.carbohydrates - 0.5 < r.macros.carbohydrates <= m.carbohydrates + 0.5
      && IsWhole(r.macros.fats) && m.fats - 0.5 < r.macros.fats <= m.fats + 0.5
    ensures r.macros.fiber == 25.0
  {
    var m := MacroTargets(profile.weight, Tdee(profile));
    var calories, protein := Round(Tdee(profile)), Round(m.protein);
    var carbohydrates, fats := Round(m.carbohydrates), Round(m.fats);
    assert (calories as real).Floor == calories && (protein as real).Floor == protein;
    assert (carbohydrates as real).Floor == carbohydrates && (fats as real).Floor == fats;
    Nutrients(calories as real, MacroNutrients(protein as real, carbohydrates as real, fats as real, m.fiber))
  }

  /** `female` and `other` give the same requirements. */
  lemma OtherGenderAsFemale(profile: UserProfile)
    ensures CalculateDailyRequirements(profile.(gender := Other))
         == CalculateDailyRequirements(profile.(gender := Female))
  {
    assert Bmr(profile.(gender := Other)) == Bmr(profile.(gender := Female));
    assert Tdee(profile.(gender := Other)) == Tdee(profile.(gender := Female));
  }

  /** Protein and fiber depend on the weight alone, whatever the gender, age,
      height, activity or goal. */
  lemma ProteinAndFiberFromWeightOnly(p: UserProfile, q: UserProfile)
    requires p.weight == q.weight
    ensures CalculateDailyRequirements(p).macros.protein == CalculateDailyRequirements(q).macros.protein
    ensures CalculateDailyRequirements(p).macros.fiber == CalculateDailyRequirements(q).macros.fiber == 25.0
  {
    var a, b := CalculateDailyRequirements(p).macros.protein, CalculateDailyRequirements(q).macros.protein;
    assert a == Round(1.6 * p.weight) as real by {
      RoundUnique(1.6 * p.weight, a.Floor);
    }
    assert b == Round(1.6 * q.weight) as real by {
      RoundUnique(1.6 * q.weight, b.Floor);
    }
  }

  /** The goal only shifts the calories: 500 fewer to lose weight, 300 more to
      gain muscle, against general fitness. */
  lemma GoalAdjustment(profile: UserProfile)
    ensures var fitness := CalculateDailyRequirements(profile.(goal := GeneralFitness)).calories;
      && CalculateDailyRequirements(profile.(goal := WeightLoss)).calories == fitness - 500.0
      && CalculateDailyRequirements(profile.(goal := MuscleGain)).calories == fitness + 300.0
  {
    var fitness, loss, gain := profile.(goal := GeneralFitness), profile.(goal := WeightLoss), profile.(goal := MuscleGain);
    var e := Bmr(profile) * ActivityMultiplier(profile.activityLevel);
    assert Bmr(fitness) == Bmr(loss) == Bmr(gain) == Bmr(profile);
    assert Tdee(fitness) == e;
    assert Tdee(loss) == e - 500.0;
    assert Tdee(gain) == e + 300.0;
    var t := e;
    RequirementCalories(profile.(goal := GeneralFitness));
    RequirementCalories(profile.(goal := WeightLoss));
    RequirementCalories(profile.(goal := MuscleGain));
    RoundShift(t, -500);
    RoundShift(t, 300);
  }

  /** Diabetes control makes no adjustment: it gives exactly the general
      fitness requirements. */
  lemma DiabetesControlAsGeneralFitness(profile: UserProfile)
    ensures CalculateDailyRequirements(profile.(goal := DiabetesControl))
         == CalculateDailyRequirements(profile.(goal := GeneralFitness))
  {
    var diabetes, fitness := profile.(goal := DiabetesControl), profile.(goal := GeneralFitness);
    assert Bmr(diabetes) == Bmr(fitness);
    assert Tdee(diabetes) == Tdee(fitness);
    assert MacroTargets(diabetes.weight, Tdee(diabetes)) == MacroTargets(fitness.weight, Tdee(fitness));
  }

  /** The calorie target is the daily energy rounded by `Math.round`. */
  lemma RequirementCalories(profile: UserProfile)
    ensures CalculateDailyRequirements(profile).calories == Round(Tdee(profile)) as real
  {
    var c := CalculateDailyRequirements(profile).calories;
    RoundUnique(Tdee(profile), c.Floor);
  }

  /** A 30-year-old man of 70 kg and 175 cm, moderately active, aiming at
      general fitness: 2556 kcal, 112 g protein, 367 g carbohydrates, 71 g fat,
      25 g fiber. */
  lemma ReferenceProfileRequirements()
    ensures CalculateDailyRequirements(UserProfile(30.0, 70.0, 175.0, Male, Moderate, GeneralFitness, None, None))
         == Nutrients(2556.0, MacroNutrients(112.0, 367.0, 71.0, 25.0))
  {
    var p := UserProfile(30.0, 70.0, 175.0, Male, Moderate, GeneralFitness, None, None);
    assert Bmr(p) == 1648.75;
    assert Tdee(p) == 2555.5625;
    var m := MacroTargets(p.weight, Tdee(p));
    RoundUnique(2555.5625, 2556);
    RoundUnique(m.protein, 112);
    RoundUnique(m.fats, 71);
    RoundUnique(m.carbohydrates, 367);
  }

  // ---------------------------------------------------------------------------
  // Health score

  function Abs(x: real): real
  {
    if x < 0.0 then -x else x
  }

  /** `Math.max(0, 100 - |actual - target| / scale)`: 100 exactly on target,
      losing a point per `scale` units away, never below 0. */
  function Balance(actual: real, target: real, scale: real): (s: real)
    requires scale > 0.0
    ensures 0.0 <= s <= 100.0
    ensures s == 100.0 <==> actual == target
  {
    var d := 100.0 - Abs(actual - target) / scale;
    if d > 0.0 then d else 0.0
  }

  /** 100 once there are seven entries, otherwise a seventh of 100 per entry;
      it counts entries, not distinct days. */
  function Consistency(entries: nat): (s: real)
    ensures 0.0 <= s <= 100.0
    ensures s == 100.0 <==> entries >= 7
  {
    if entries >= 7 then 100.0 else (entries as real / 7.0) * 100.0
  }

  function LogCalories(log: MealLog): real
  {
    log.totalNutrition.calories
  }

  function LogProtein(log: MealLog): real
  {
    log.totalNutrition.macros.protein
  }

  /** `calculateHealthScore`: 50 for an empty window; otherwise the rounded
      0.4/0.3/0.3 blend of the calorie balance, the protein balance and the
      entry count, always within 0..100. */
  function CalculateHealthScore(logs: seq<MealLog>, requirements: Nutrients): (score: int)
    ensures |logs| == 0 ==> score == 50
    ensures 0 <= score <= 100
  {
    if |logs| == 0 then 50
    else
      var n := |logs| as real;
      var avgCalories := SumOf(logs, LogCalories) / n;
      var calorieBalance := Balance(avgCalories, requirements.calories, 10.0);
      var avgProtein := SumOf(logs, LogProtein) / n;
      var macroBalance := Balance(avgProtein, requirements.macros.protein, 2.0);
      var consistency := Consistency(|logs|);
      var blend := calorieBalance * 0.4 + macroBalance * 0.3 + consistency * 0.3;
      assert 0.0 <= blend <= 100.0;
      RoundWithin(blend, 0, 100);
      Round(blend)
  }

  lemma RoundMonotone(x: real, y: real)
    requires x <= y
    ensures Round(x) <= Round(y)
  {
  }

  /** Rounding stays within whole bounds. */
  lemma RoundWithin(x: real, lo: int, hi: int)
    ensures lo as real <= x <= hi as real ==> lo <= Round(x) <= hi
  {
    RoundUnique(lo as real, lo);
    RoundUnique(hi as real, hi);
    if lo as real <= x <= hi as real {
      RoundMonotone(lo as real, x);
      RoundMonotone(x, hi as real);
    }
  }

  /** Reordering the window does not change the score. */
  lemma HealthScoreIgnoresOrder(logs: seq<MealLog>, reordered: seq<MealLog>, requirements: Nutrients)
    requires multiset(logs) == multiset(reordered)
    ensures CalculateHealthScore(logs, requirements) == CalculateHealthScore(reordered, requirements)
  {
    assert |logs| == |multiset(logs)| == |reordered|;
    SumOfPermutation(logs, reordered, LogCalories);
    SumOfPermutation(logs, reordered, LogProtein);
  }

  /** A window that meets the calorie and protein targets on average, with at
      least seven entries, scores 100. */
  lemma OnTargetWindowScoresFull(logs: seq<MealLog>, requirements: Nutrients)
    requires |logs| >= 7
    requires forall l :: l in logs ==> LogCalories(l) == requirements.calories && LogProtein(l) == requirements.macros.protein
    ensures CalculateHealthScore(logs, requirements) == 100
  {
    SumOfConstant(logs, LogCalories, requirements.calories);
    SumOfConstant(logs, LogProtein, requirements.macros.protein);
    RoundUnique(100.0, 100);
  }

  /** Seven logs of 2000 kcal and 100 g protein against 2500 kcal and 112 g
      score 78: calorie balance 50, protein balance 94, consistency 100. */
  lemma SevenLogsScore(logs: seq<MealLog>, requirements: Nutrients)
    requires |logs| == 7
    requires forall l :: l in logs ==> LogCalories(l) == 2000.0 && LogProtein(l) == 100.0
    requires requirements.calories == 2500.0 && requirements.macros.protein == 112.0
    ensures CalculateHealthScore(logs, requirements) == 78
  {
    SumOfConstant(logs, LogCalories, 2000.0);
    SumOfConstant(logs, LogProtein, 100.0);
    assert Balance(2000.0, 2500.0, 10.0) == 50.0;
    assert Balance(100.0, 112.0, 2.0) == 94.0;
    RoundUnique(78.2, 78);
  }
}
