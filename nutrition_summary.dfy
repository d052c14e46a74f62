/**
 * The day's nutrition summary: the totals over the four slots of the fetched day log,
 * and each nutrient card's percentage, over-target flag and remaining amount against the
 * fixed daily targets.
 */
module NutritionSummary {
  import opened JsValues
  import opened Nutrition

  /** The slots summed, in the order the loop visits them. */
  const SlotKeys := ["breakfast", "lunch", "dinner", "snacks"]

  /** The targets the summary compares against: fixed, not read from the profile. */
  const DailyTargets := Macros(2000.0, 150.0, 250.0, 65.0)

  /** The entries of the day in the order they are summed: breakfast, lunch, dinner, snacks. */
  function DayEntries(day: seq<MealList>): seq<Entry>
  {
    ItemsOf(day, "breakfast") + ItemsOf(day, "lunch") + ItemsOf(day, "dinner") + ItemsOf(day, "snacks")
  }

  /** The day's raw sums are the sums of its four slots. */
  lemma DayTotalIsSumOfSlots(day: seq<MealList>, lookup: string -> Lookup)
    ensures Total(DayEntries(day), lookup)
         == Plus(Plus(Plus(Total(ItemsOf(day, "breakfast"), lookup), Total(ItemsOf(day, "lunch"), lookup)),
                      Total(ItemsOf(day, "dinner"), lookup)),
                 Total(ItemsOf(day, "snacks"), lookup))
  {
    var b, l, d, s := ItemsOf(day, "breakfast"), ItemsOf(day, "lunch"), ItemsOf(day, "dinner"), ItemsOf(day, "snacks");
    TotalAppend(b + l + d, s, lookup);
    TotalAppend(b + l, d, lookup);
    TotalAppend(b, l, lookup);
  }

  /**
   * `calculateDailyNutrition`: nested loops over the four slots and their entries. When the day
   * log cannot be fetched (`None`) the previous numbers stay.
   */
  method CalculateDailyNutrition(meals: Option<seq<MealList>>, lookup: string -> Lookup, previous: Summary)
    returns (s: Summary)
    ensures meals.None? ==> s == previous
    ensures meals.Some? ==> s == Rounded(Total(DayEntries(meals.value), lookup))
  {
    if meals.None? {
      return previous;
    }
    var day := meals.value;
    var totalCalories, totalProteins, totalCarbohydrates, totalFat := 0.0, 0.0, 0.0, 0.0;
    ghost var done: seq<Entry> := [];
    var k := 0;
    while k < |SlotKeys|
      invariant 0 <= k <= |SlotKeys|
      invariant done == SlotsUpTo(day, k)
      invariant Macros(totalCalories, totalProteins, totalCarbohydrates, totalFat) == Total(done, lookup)
    {
      var mealItems := ItemsOf(day, SlotKeys[k]);
      totalCalories, totalProteins, totalCarbohydrates, totalFat :=
        AddEntries(totalCalories, totalProteins, totalCarbohydrates, totalFat, mealItems, lookup);
      TotalAppend(done, mealItems, lookup);
      assert SlotsUpTo(day, k + 1) == done + mealItems;
      done := done + mealItems;
      k := k + 1;
    }
    AllSlots(day);
    s := Summary(Round(totalCalories), RoundTenth(totalProteins), RoundTenth(totalCarbohydrates), RoundTenth(totalFat));
  }

  /** The inner loop over one slot's entries, adding each found item's share to the four sums. */
  method AddEntries(calories: real, proteins: real, carbohydrates: real, fat: real, mealItems: seq<Entry>, lookup: string -> Lookup)
    returns (totalCalories: real, totalProteins: real, totalCarbohydrates: real, totalFat: real)
    ensures Macros(totalCalories, totalProteins, totalCarbohydrates, totalFat)
         == Plus(Macros(calories, proteins, carbohydrates, fat), Total(mealItems, lookup))
  {
    totalCalories, totalProteins, totalCarbohydrates, totalFat := calories, proteins, carbohydrates, fat;
    var i := 0;
    while i < |mealItems|
      invariant 0 <= i <= |mealItems|
      invariant Macros(totalCalories, totalProteins, totalCarbohydrates, totalFat)
             == Plus(Macros(calories, proteins, carbohydrates, fat), Total(mealItems[..i], lookup))
    {
      var item := mealItems[i];
      assert mealItems[..i + 1][..i] == mealItems[..i];
      match lookup(item.foodItemId) {
        case Found(food) =>
          var multiplier := item.quantity / 100.0;
          totalCalories := totalCalories + food.calories * multiplier;
          totalProteins := totalProteins + food.proteins * multiplier;
          totalCarbohydrates := totalCarbohydrates + food.carbohydrates * multiplier;
          totalFat := totalFat + food.fat * multiplier;
        case _ =>
      }
      i := i + 1;
    }
    assert mealItems[..i] == mealItems;
  }

  /** The entries of the first `k` slots of `SlotKeys`. */
  ghost function SlotsUpTo(day: seq<MealList>, k: nat): seq<Entry>
    requires k <= |SlotKeys|
  {
    if k == 0 then [] else SlotsUpTo(day, k - 1) + ItemsOf(day, SlotKeys[k - 1])
  }

  lemma AllSlots(day: seq<MealList>)
    ensures SlotsUpTo(day, |SlotKeys|) == DayEntries(day)
  {
    var b, l, d, n := ItemsOf(day, "breakfast"), ItemsOf(day, "lunch"), ItemsOf(day, "dinner"), ItemsOf(day, "snacks");
    assert SlotKeys[0] == "breakfast" && SlotKeys[1] == "lunch" && SlotKeys[2] == "dinner" && SlotKeys[3] == "snacks";
    assert SlotsUpTo(day, 1) == [] + b == b;
    assert SlotsUpTo(day, 2) == b + l;
    assert SlotsUpTo(day, 3) == b + l + d;
    assert SlotsUpTo(day, 4) == b + l + d + n;
  }

  // ---------------------------------------------------------------------------
  // Nutrient cards

  /** Under the bar: the amount still to eat, or the target while nothing is eaten yet. */
  datatype Footer = Remaining(amount: int) | TargetShown

  /** A nutrient card: bar width, over-target flag, the rounded badge percentage, the footer. */
  datatype Card = Card(percentage: real, isOverTarget: bool, badge: int, footer: Footer)

  /** `NutritionCard` for one nutrient. */
  function NutritionCard(current: real, target: real): (c: Card)
    requires target > 0.0
    ensures c.percentage <= 100.0
    ensures current >= target ==> c.percentage == 100.0
    ensures current < target ==> c.percentage == current / target * 100.0
    ensures c.isOverTarget <==> current > target
    ensures c.badge <= 100
    ensures current <= 0.0 <==> c.footer == TargetShown
    ensures c.footer.Remaining? ==> c.footer.amount >= 0
    ensures c.footer.Remaining? && current >= target ==> c.footer.amount == 0
    ensures c.footer.Remaining? && current < target ==>
      target - current - 0.5 < c.footer.amount as real <= target - current + 0.5
  {
    PercentOfTarget(current, target);
    var ratio := current / target * 100.0;
    var percentage := if ratio < 100.0 then ratio else 100.0;
    Card(percentage, current > target, Round(percentage),
         if current > 0.0 then Remaining(if target - current > 0.0 then Round(target - current) else 0)
         else TargetShown)
  }

  /** The share of a positive target reaches 100 percent exactly when the target is reached. */
  lemma PercentOfTarget(current: real, target: real)
    requires target > 0.0
    ensures current / target * 100.0 < 100.0 <==> current < target
  {
    var q := current / target;
    assert q * target == current;
    if q < 1.0 {
      assert q * target < 1.0 * target;
    } else {
      assert q * target >= 1.0 * target;
    }
  }

  /** The four cards of the summary, against the fixed targets. */
  function Cards(s: Summary): (cards: seq<Card>)
    ensures |cards| == 4
    ensures var current := [s.calories as real, s.proteins, s.carbohydrates, s.fat];
      var target := [2000.0, 150.0, 250.0, 65.0];
      forall i :: 0 <= i < 4 ==>
        && (cards[i].isOverTarget <==> current[i] > target[i])
        && (current[i] >= target[i] ==> cards[i].percentage == 100.0)
        && (current[i] < target[i] ==> cards[i].percentage == current[i] / target[i] * 100.0)
        && (current[i] <= 0.0 <==> cards[i].footer == TargetShown)
  {
    [NutritionCard(s.calories as real, DailyTargets.calories),
     NutritionCard(s.proteins, DailyTargets.proteins),
     NutritionCard(s.carbohydrates, DailyTargets.carbohydrates),
     NutritionCard(s.fat, DailyTargets.fat)]
  }
}
