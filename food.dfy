/** The pure pipeline inside `analyzeImage` (lambda/src/handlers/food.ts):
    image labels are filtered to food categories, the first five become
    detected foods with a fixed 150 g portion, and their nutrition is summed. */
module FoodHandler {
  import opened Wrappers
  import opened Types
  import opened Sums
  import NutritionUtils

  /** One label from the image-labeling service: its name and its confidence
      (0-100) may be absent; `categories` are the names of its categories. */
  datatype Label = Label(name: Option<string>, confidence: Option<real>, categories: seq<string>)

  /** The response body's computed part. */
  datatype Analysis = Analysis(
    imageId: string,
    detectedFoods: seq<DetectedFood>,
    totalCalories: real,
    totalMacros: MacroNutrients,
    confidence: real,
    timestamp: string)

  const FoodCategories: set<string> := {"Food", "Dish", "Meal", "Cuisine"}

  const MaxFoods: nat := 5

  const PortionGrams: real := 150.0

  const DefaultPortion := PortionSize(PortionGrams, "grams", 0.7)

  const UnknownFoodName: string := "Unknown Food"

  /** A label is kept when one of its categories is a food category. */
  predicate IsFoodLabel(tag: Label)
  {
    exists c :: c in tag.categories && c in FoodCategories
  }

  /** `labels.filter(IsFoodLabel)`. */
  function FoodLabels(labels: seq<Label>): (kept: seq<Label>)
    ensures |kept| <= |labels|
    ensures forall l :: l in kept <==> l in labels && IsFoodLabel(l)
  {
    if |labels| == 0 then []
    else (if IsFoodLabel(labels[0]) then [labels[0]] else []) + FoodLabels(labels[1..])
  }

  /** The filter keeps order: filtering a concatenation is concatenating the
      filtered parts. */
  lemma {:induction false} FoodLabelsAppend(a: seq<Label>, b: seq<Label>)
    ensures FoodLabels(a + b) == FoodLabels(a) + FoodLabels(b)
    decreases |a|
  {
    if |a| == 0 {
      assert a + b == b;
    } else {
      assert (a + b)[1..] == a[1..] + b;
      FoodLabelsAppend(a[1..], b);
    }
  }

  /** One surviving label as a detected food: the fixed 150 g portion at
      confidence 0.7, the label's confidence scaled from 0-100 to 0-1 (0 when
      absent), and the nutrition of its displayed name at 150 g. A nameless
      label is shown as "Unknown Food" and priced as rice. */
  function ToDetectedFood(tag: Label): (food: DetectedFood)
    ensures food.name == StringOr(tag.name, UnknownFoodName)
    ensures tag.name.None? || tag.name == Some("") ==>
              food.name == UnknownFoodName
              && food.nutrition == NutritionUtils.GetNutritionForFood(NutritionUtils.FallbackFood, PortionGrams)
    ensures food.portionSize == PortionSize(150.0, "grams", 0.7)
    ensures food.nutrition == NutritionUtils.GetNutritionForFood(food.name, PortionGrams)
    ensures food.confidence * 100.0 == tag.confidence.GetOr(0.0)
    ensures tag.confidence.Some? && 0.0 <= tag.confidence.value <= 100.0 ==> 0.0 <= food.confidence <= 1.0
    ensures NonNegative(food.nutrition)
  {
    var nutrition := NutritionUtils.GetNutritionForFood(StringOr(tag.name, NutritionUtils.FallbackFood), PortionGrams);
    var name := StringOr(tag.name, UnknownFoodName);
    PricedByDisplayedName(tag.name);
    DetectedFood(name, tag.confidence.GetOr(0.0) / 100.0, DefaultPortion, nutrition)
  }

  /** Pricing by `name || 'rice'` is pricing by the displayed
      `name || 'Unknown Food'`, since "Unknown Food" falls back to rice. */
  lemma PricedByDisplayedName(name: Option<string>)
    ensures name.None? || name == Some("") ==>
              NutritionUtils.GetNutritionForFood(StringOr(name, UnknownFoodName), PortionGrams)
              == NutritionUtils.GetNutritionForFood(NutritionUtils.FallbackFood, PortionGrams)
    ensures NutritionUtils.GetNutritionForFood(StringOr(name, NutritionUtils.FallbackFood), PortionGrams)
         == NutritionUtils.GetNutritionForFood(StringOr(name, UnknownFoodName), PortionGrams)
  {
    if name.None? || name.value == "" {
      UnknownFoodNameNotInTable();
      NutritionUtils.UnknownFoodIsRice(UnknownFoodName, PortionGrams);
    }
  }

  /** "Unknown Food" is not a table entry. */
  lemma UnknownFoodNameNotInTable()
    ensures NutritionUtils.LowerCase(UnknownFoodName) !in NutritionUtils.FoodDatabase
  {
    var key := NutritionUtils.LowerCase(UnknownFoodName);
    assert |UnknownFoodName| == 12;
    NutritionUtils.TableKeysShorterThan(key);
  }

  /** The first five food labels, in the order the labeling service gave
      them, as detected foods. */
  function DetectFoods(labels: seq<Label>): (foods: seq<DetectedFood>)
    ensures |foods| <= MaxFoods
    ensures |foods| == if |FoodLabels(labels)| < MaxFoods then |FoodLabels(labels)| else MaxFoods
    ensures forall i :: 0 <= i < |foods| ==> foods[i] == ToDetectedFood(FoodLabels(labels)[i])
  {
    var survivors := FoodLabels(labels);
    var firstFive := if |survivors| <= MaxFoods then survivors else survivors[..MaxFoods];
    seq(|firstFive|, i requires 0 <= i < |firstFive| => ToDetectedFood(firstFive[i]))
  }

  /** No re-ranking: once five food labels have been seen, later labels change
      nothing, whatever their confidence. */
  lemma LaterLabelsIgnored(first: seq<Label>, later: seq<Label>)
    requires |FoodLabels(first)| >= MaxFoods
    ensures DetectFoods(first + later) == DetectFoods(first)
  {
    FoodLabelsAppend(first, later);
  }

  /** Labels of no food category produce no food. */
  lemma {:induction false} NoFoodLabelsNoFoods(labels: seq<Label>)
    requires forall l :: l in labels ==> !IsFoodLabel(l)
    ensures FoodLabels(labels) == [] && DetectFoods(labels) == []
    decreases |labels|
  {
    if |labels| > 0 {
      assert labels[0] in labels;
      assert forall l :: l in labels[1..] ==> l in labels;
      NoFoodLabelsNoFoods(labels[1..]);
    }
  }

  function FoodCalories(food: DetectedFood): real { food.nutrition.calories }
  function FoodProtein(food: DetectedFood): real { food.nutrition.macros.protein }
  function FoodCarbohydrates(food: DetectedFood): real { food.nutrition.macros.carbohydrates }
  function FoodFats(food: DetectedFood): real { food.nutrition.macros.fats }
  function FoodFiber(food: DetectedFood): real { food.nutrition.macros.fiber }

  /** `detectedFoods.reduce((sum, food) => sum + food.nutrition.calories, 0)`. */
  function TotalCalories(foods: seq<DetectedFood>): (total: real)
    ensures foods == [] ==> total == 0.0
    ensures (forall f :: f in foods ==> f.nutrition.calories >= 0.0) ==> total >= 0.0
  {
    SumOfNonNegative(foods, FoodCalories);
    SumOf(foods, FoodCalories)
  }

  /** The macro totals, folded left to right from all zeros; each field is the
      sum of that field over the foods. */
  function TotalMacros(foods: seq<DetectedFood>): (total: MacroNutrients)
    ensures total.protein == SumOf(foods, FoodProtein)
    ensures total.carbohydrates == SumOf(foods, FoodCarbohydrates)
    ensures total.fats == SumOf(foods, FoodFats)
    ensures total.fiber == SumOf(foods, FoodFiber)
  {
    if |foods| == 0 then ZeroMacros
    else AddMacros(TotalMacros(foods[..|foods| - 1]), foods[|foods| - 1].nutrition.macros)
  }

  /** The totals do not depend on the order of the foods. */
  lemma TotalsIgnoreOrder(foods: seq<DetectedFood>, reordered: seq<DetectedFood>)
    requires multiset(foods) == multiset(reordered)
    ensures TotalCalories(foods) == TotalCalories(reordered)
    ensures TotalMacros(foods) == TotalMacros(reordered)
  {
    SumOfPermutation(foods, reordered, FoodCalories);
    SumOfPermutation(foods, reordered, FoodProtein);
    SumOfPermutation(foods, reordered, FoodCarbohydrates);
    SumOfPermutation(foods, reordered, FoodFats);
    SumOfPermutation(foods, reordered, FoodFiber);
  }

  /** The totals of two batches of foods add up: the calories, and the macro
      totals field by field, which is `AddMacros` of the two macro totals. */
  lemma TotalsAppend(a: seq<DetectedFood>, b: seq<DetectedFood>)
    ensures TotalCalories(a + b) == TotalCalories(a) + TotalCalories(b)
    ensures TotalMacros(a + b).protein == TotalMacros(a).protein + TotalMacros(b).protein
    ensures TotalMacros(a + b).carbohydrates == TotalMacros(a).carbohydrates + TotalMacros(b).carbohydrates
    ensures TotalMacros(a + b).fats == TotalMacros(a).fats + TotalMacros(b).fats
    ensures TotalMacros(a + b).fiber == TotalMacros(a).fiber + TotalMacros(b).fiber
  {
    SumOfAppend(a, b, FoodCalories);
    SumOfAppend(a, b, FoodProtein);
    SumOfAppend(a, b, FoodCarbohydrates);
    SumOfAppend(a, b, FoodFats);
    SumOfAppend(a, b, FoodFiber);
  }

  /** `detectedFoods.length > 0 ? detectedFoods[0].confidence : 0`. */
  function OverallConfidence(foods: seq<DetectedFood>): (c: real)
    ensures |foods| == 0 ==> c == 0.0
    ensures |foods| > 0 ==> c == foods[0].confidence
  {
    if |foods| > 0 then foods[0].confidence else 0.0
  }

  /** `analyzeImage` after the labeling call: `labels` is the service's
      `Labels` field, absent when it returned none. The image id and the
      timestamp come from outside. */
  function AnalyzeImage(imageId: string, labels: Option<seq<Label>>, timestamp: string): (r: Analysis)
    ensures r.imageId == imageId && r.timestamp == timestamp
    ensures r.detectedFoods == DetectFoods(labels.GetOr([]))
    ensures |r.detectedFoods| <= MaxFoods
    ensures labels.None? ==> r.detectedFoods == []
    ensures r.totalCalories == SumOf(r.detectedFoods, FoodCalories) >= 0.0
    ensures r.totalMacros.protein == SumOf(r.detectedFoods, FoodProtein)
    ensures r.totalMacros.carbohydrates == SumOf(r.detectedFoods, FoodCarbohydrates)
    ensures r.totalMacros.fats == SumOf(r.detectedFoods, FoodFats)
    ensures r.totalMacros.fiber == SumOf(r.detectedFoods, FoodFiber)
    ensures NonNegativeMacros(r.totalMacros)
    ensures r.detectedFoods == [] ==> r.totalCalories == 0.0 && r.totalMacros == ZeroMacros && r.confidence == 0.0
    ensures r.detectedFoods != [] ==> r.confidence == r.detectedFoods[0].confidence
  {
    var foods := DetectFoods(labels.GetOr([]));
    assert forall f :: f in foods ==> NonNegative(f.nutrition);
    SumOfNonNegative(foods, FoodCalories);
    SumOfNonNegative(foods, FoodProtein);
    SumOfNonNegative(foods, FoodCarbohydrates);
    SumOfNonNegative(foods, FoodFats);
    SumOfNonNegative(foods, FoodFiber);
    Analysis(imageId, foods, TotalCalories(foods), TotalMacros(foods), OverallConfidence(foods), timestamp)
  }
}
