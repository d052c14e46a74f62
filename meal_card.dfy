/**
 * A meal slot's card: the totals effect that fetches each entry's food item and sums it,
 * and each entry line's rounding. The slot's entries are `ItemsOf(day, mealType)`.
 */
module MealCard {
  import opened Nutrition

  /**
   * `calculateNutrition`: all zeros for no entries, otherwise the four running sums over the
   * entries whose item is found, rounded once at the end.
   */
  method CalculateNutrition(mealItems: seq<Entry>, lookup: string -> Lookup) returns (s: Summary)
    ensures s == Rounded(Total(mealItems, lookup))
    ensures mealItems == [] ==> s == Summary(0, 0.0, 0.0, 0.0)
  {
    if |mealItems| == 0 {
      RoundedZero();
      return Summary(0, 0.0, 0.0, 0.0);
    }
    var totalCalories, totalProtein, totalCarbs, totalFat := 0.0, 0.0, 0.0, 0.0;
    var i := 0;
    while i < |mealItems|
      invariant 0 <= i <= |mealItems|
      invariant Macros(totalCalories, totalProtein, totalCarbs, totalFat) == Total(mealItems[..i], lookup)
    {
      var item := mealItems[i];
      assert mealItems[..i + 1][..i] == mealItems[..i];
      match lookup(item.foodItemId) {
        case Found(foodDetails) =>
          var multiplier := item.quantity / 100.0;
          totalCalories := totalCalories + foodDetails.calories * multiplier;
          totalProtein := totalProtein + foodDetails.proteins * multiplier;
          totalCarbs := totalCarbs + foodDetails.carbohydrates * multiplier;
          totalFat := totalFat + foodDetails.fat * multiplier;
        case _ =>
      }
      i := i + 1;
    }
    assert mealItems[..i] == mealItems;
    s := Summary(Round(totalCalories), RoundTenth(totalProtein), RoundTenth(totalCarbs), RoundTenth(totalFat));
  }

  /** The four whole numbers an entry line shows. */
  datatype Line = Line(calories: int, proteins: int, carbohydrates: int, fat: int)

  /** Each entry line rounds its own four scaled values to whole numbers. */
  function EntryLine(food: Macros, quantity: real): (l: Line)
    ensures var exact := Contribution(Entry("", quantity), (_: string) => Found(food));
      && exact.calories - 0.5 < l.calories as real <= exact.calories + 0.5
      && exact.proteins - 0.5 < l.proteins as real <= exact.proteins + 0.5
      && exact.carbohydrates - 0.5 < l.carbohydrates as real <= exact.carbohydrates + 0.5
      && exact.fat - 0.5 < l.fat as real <= exact.fat + 0.5
  {
    Line(Round(food.calories * quantity / 100.0), Round(food.proteins * quantity / 100.0),
         Round(food.carbohydrates * quantity / 100.0), Round(food.fat * quantity / 100.0))
  }

  /**
   * The lines are rounded one by one and the card total once, so the lines need not add up to
   * the card: two entries of 0.5 kcal each show 1 and 1, and the card shows 1.
   */
  lemma LinesNeedNotAddUp()
    ensures var food := Macros(1.0, 0.0, 0.0, 0.0);
      var lookup := (_: string) => Found(food);
      && EntryLine(food, 50.0).calories == 1
      && Rounded(Total([Entry("a", 50.0), Entry("a", 50.0)], lookup)).calories == 1
  {
    var food := Macros(1.0, 0.0, 0.0, 0.0);
    var lookup := (_: string) => Found(food);
    var two := [Entry("a", 50.0), Entry("a", 50.0)];
    assert two[..1][..0] == [];
    assert Total(two[..1], lookup).calories == 0.5;
    assert Total(two, lookup).calories == 1.0;
    assert Round(1.0) == 1;
    assert Round(0.5) == 1;
  }
}
