/**
 * The copy-meal dialog: the food ids of the chosen day, the cache of their details, the
 * nutrition preview of the chosen slot, the copy loop, and the heading's slot label.
 */
module CopyMeal {
  import opened JsValues
  import opened Text
  import opened Nutrition

  /** The slot keys with their labels, in the order the dialog lists them. */
  const MealTypes: seq<(string, string)> := [
    ("breakfast", "\U{1F305} Breakfast"),
    ("lunch", "\U{2600}\U{FE0F} Lunch"),
    ("dinner", "\U{1F319} Dinner"),
    ("snacks", "\U{1F37F} Snacks")]

  /** `mealTypes.find(m => m.key === key)?.label`, or `key` itself when no slot has that key. */
  function MealLabel(key: string): (r: string)
    ensures forall i :: 0 <= i < |MealTypes| && MealTypes[i].0 == key ==> r == MealTypes[i].1
    ensures (forall i :: 0 <= i < |MealTypes| ==> MealTypes[i].0 != key) ==> r == key
  {
    LabelIn(MealTypes, key)
  }

  function LabelIn(table: seq<(string, string)>, key: string): (r: string)
    ensures (forall i :: 0 <= i < |table| ==> table[i].0 != key) ==> r == key
    ensures forall i :: 0 <= i < |table| && table[i].0 == key && (forall j :: 0 <= j < i ==> table[j].0 != key)
                        ==> r == table[i].1
  {
    if table == [] then key
    else if table[0].0 == key then table[0].1
    else LabelIn(table[1..], key)
  }

  // ---------------------------------------------------------------------------
  // Food ids of the chosen day and the details cache

  /**
   * Some entry of some slot of `day`, as `JSON.parse` keeps it, refers to `id`: a key written
   * twice contributes only the list written last.
   */
  ghost predicate Mentions(day: seq<MealList>, id: string)
  {
    MentionedBefore(day, |day|, id)
  }

  /** Some entry of the list kept for one of the first `i` keys refers to `id`. */
  ghost predicate MentionedBefore(day: seq<MealList>, i: nat, id: string)
    requires i <= |day|
  {
    exists a, b :: 0 <= a < i && 0 <= b < |KeptList(day, a)| && KeptList(day, a)[b].foodItemId == id
  }

  /** The list `JSON.parse` keeps for the key at position `i`. */
  function KeptList(day: seq<MealList>, i: nat): seq<Entry>
    requires i < |day|
  {
    ItemsOf(day, day[i].key)
  }

  /**
   * The `Set` of food ids over `Object.values(meals)`, in the order they are first met.
   * `Object.values` lists each key once, at its first position, with the list `JSON.parse` kept
   * for it, `ItemsOf(day, key)`. The loop reads that list at every position of the key; a repeat
   * reads the same list again and adds nothing new to the set.
   */
  method CollectIds(day: seq<MealList>) returns (ids: seq<string>)
    ensures Distinct(ids)
    ensures forall id :: id in ids <==> Mentions(day, id)
  {
    ids := [];
    var i := 0;
    while i < |day|
      invariant 0 <= i <= |day|
      invariant Distinct(ids)
      invariant forall id :: id in ids <==> MentionedBefore(day, i, id)
    {
      var mealItems := KeptList(day, i);
      var j := 0;
      while j < |mealItems|
        invariant 0 <= j <= |mealItems|
        invariant Distinct(ids)
        invariant forall id :: id in ids <==>
          MentionedBefore(day, i, id) || exists b :: 0 <= b < j && mealItems[b].foodItemId == id
      {
        if mealItems[j].foodItemId !in ids {
          ids := ids + [mealItems[j].foodItemId];
        }
        j := j + 1;
      }
      forall id | MentionedBefore(day, i + 1, id)
        ensures MentionedBefore(day, i, id) || exists b :: 0 <= b < |mealItems| && mealItems[b].foodItemId == id
      {
        var a, b :| 0 <= a < i + 1 && 0 <= b < |KeptList(day, a)| && KeptList(day, a)[b].foodItemId == id;
        if a == i {
          assert mealItems[b].foodItemId == id;
        }
      }
      i := i + 1;
    }
  }

  /**
   * `fetchFoodItemDetails`: a copy of the cache, with each id that is not cached yet fetched
   * and added when the fetch finds it. Also gives the ids requested, in order.
   */
  method FetchFoodItemDetails(foodItemIds: seq<string>, cache: map<string, Macros>, fetch: string -> Lookup)
    returns (newCache: map<string, Macros>, requested: seq<string>)
    ensures forall id :: id in cache ==> id in newCache && newCache[id] == cache[id]
    ensures forall id :: id in newCache && id !in cache ==> id in foodItemIds && fetch(id) == Found(newCache[id])
    ensures forall id :: id in foodItemIds && fetch(id).Found? ==> id in newCache
    ensures forall id :: id in requested ==> id in foodItemIds && id !in cache
    ensures forall id :: id in foodItemIds && id !in cache ==> id in requested
  {
    newCache := cache;
    requested := [];
    var i := 0;
    while i < |foodItemIds|
      invariant 0 <= i <= |foodItemIds|
      invariant forall id :: id in cache ==> id in newCache && newCache[id] == cache[id]
      invariant forall id :: id in newCache && id !in cache ==> id in foodItemIds[..i] && fetch(id) == Found(newCache[id])
      invariant forall id :: id in foodItemIds[..i] && fetch(id).Found? ==> id in newCache
      invariant forall id :: id in requested ==> id in foodItemIds[..i] && id !in cache
      invariant forall id :: id in foodItemIds[..i] && id !in cache ==> id in requested || id in newCache
      invariant forall id :: id in newCache && id !in cache ==> id in requested
    {
      var id := foodItemIds[i];
      assert foodItemIds[..i + 1] == foodItemIds[..i] + [id];
      if id !in newCache {
        requested := requested + [id];
        match fetch(id) {
          case Found(item) => newCache := newCache[id := item];
          case _ =>
        }
      }
      i := i + 1;
    }
    assert foodItemIds[..i] == foodItemIds;
  }

  /** The cache read as a lookup: a cached id is found, any other is not. */
  function FromCache(cache: map<string, Macros>): string -> Lookup
  {
    (id: string) => if id in cache then Found(cache[id]) else NotOk
  }

  /** `calculateMealNutrition`: the rounded sums over the entries whose item is cached. */
  method CalculateMealNutrition(mealItems: seq<Entry>, cache: map<string, Macros>) returns (s: Summary)
    ensures s == Rounded(Total(mealItems, FromCache(cache)))
  {
    var totalCalories, totalProtein, totalCarbs, totalFat := 0.0, 0.0, 0.0, 0.0;
    var i := 0;
    while i < |mealItems|
      invariant 0 <= i <= |mealItems|
      invariant Macros(totalCalories, totalProtein, totalCarbs, totalFat) == Total(mealItems[..i], FromCache(cache))
    {
      var item := mealItems[i];
      assert mealItems[..i + 1][..i] == mealItems[..i];
      if item.foodItemId in cache {
        var foodDetails := cache[item.foodItemId];
        var multiplier := item.quantity / 100.0;
        totalCalories := totalCalories + foodDetails.calories * multiplier;
        totalProtein := totalProtein + foodDetails.proteins * multiplier;
        totalCarbs := totalCarbs + foodDetails.carbohydrates * multiplier;
        totalFat := totalFat + foodDetails.fat * multiplier;
      }
      i := i + 1;
    }
    assert mealItems[..i] == mealItems;
    s := Summary(Round(totalCalories), RoundTenth(totalProtein), RoundTenth(totalCarbs), RoundTenth(totalFat));
  }

  /**
   * A cache that holds exactly what the fetches found, for every id the entries mention,
   * gives the same preview sums as fetching each entry's item directly, for a fixed answer
   * per id: `fetch` gives the same answer to every fetch of an id, which the components'
   * separate fetches, made at other times, need not.
   */
  lemma CachedTotalsMatchFetched(mealItems: seq<Entry>, cache: map<string, Macros>, fetch: string -> Lookup)
    requires forall id :: id in cache ==> fetch(id) == Found(cache[id])
    requires forall i :: 0 <= i < |mealItems| && fetch(mealItems[i].foodItemId).Found? ==> mealItems[i].foodItemId in cache
    ensures Total(mealItems, FromCache(cache)) == Total(mealItems, fetch)
  {
    forall i | 0 <= i < |mealItems|
      ensures Contribution(mealItems[i], FromCache(cache)) == Contribution(mealItems[i], fetch)
    {
      var id := mealItems[i].foodItemId;
      if id in cache {
        assert FromCache(cache)(id) == fetch(id);
      } else {
        assert FromCache(cache)(id) == NotOk && !fetch(id).Found?;
      }
      SameLookupSameContribution(mealItems[i], FromCache(cache), fetch);
    }
    TotalDependsOnlyOnEntries(mealItems, FromCache(cache), fetch);
  }

  // ---------------------------------------------------------------------------
  // Copying

  const NothingToCopy := "No food items to copy from the selected meal."
  const CopyFailed := "Failed to copy meal. Please try again."

  /** The `onCopyMeal` calls made, whether the dialog closed, and the alert shown, if any. */
  datatype CopyResult = CopyResult(copied: seq<Entry>, closed: bool, alert: Option<string>)

  /**
   * `handleCopyMeal`: `onCopyMeal` once per entry, in order; `fails(k)` says whether the k-th
   * call throws, which stops the loop without undoing the earlier copies.
   */
  method HandleCopyMeal(selectedMealItems: seq<Entry>, fails: int -> bool) returns (r: CopyResult)
    ensures selectedMealItems == [] ==> r == CopyResult([], false, Some(NothingToCopy))
    ensures selectedMealItems != [] && (forall k :: 0 <= k < |selectedMealItems| ==> !fails(k)) ==>
      r == CopyResult(selectedMealItems, true, None)
    ensures selectedMealItems != [] && (exists k :: 0 <= k < |selectedMealItems| && fails(k)) ==>
      && !r.closed && r.alert == Some(CopyFailed)
      && 0 < |r.copied| <= |selectedMealItems| && r.copied == selectedMealItems[..|r.copied|]
      && fails(|r.copied| - 1) && forall k :: 0 <= k < |r.copied| - 1 ==> !fails(k)
  {
    if |selectedMealItems| == 0 {
      return CopyResult([], false, Some(NothingToCopy));
    }
    var copied: seq<Entry> := [];
    var i := 0;
    while i < |selectedMealItems|
      invariant 0 <= i <= |selectedMealItems|
      invariant copied == selectedMealItems[..i]
      invariant forall k :: 0 <= k < i ==> !fails(k)
    {
      copied := copied + [selectedMealItems[i]];
      if fails(i) {
        return CopyResult(copied, false, Some(CopyFailed));
      }
      i := i + 1;
    }
    assert copied == selectedMealItems;
    r := CopyResult(copied, true, None);
  }
}
