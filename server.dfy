/**
 * The Express server's route handlers over the persisted document. Each handler reads the
 * whole document, decides, and writes it back only when it succeeds, so a rejected request
 * leaves the document as it was. Fresh ids (`uuidv4`) and timestamps are parameters.
 */
module Server {
  import opened JsValues
  import opened StoreModel
  import opened Sorting
  import opened Text

  /** The date a weight entry is filed under and sorted by. */
  function WeightDate(e: WeightEntry): string
  {
    e.date
  }

  class Db {
    var meals: map<string, DayLog>
    var foodItems: map<string, FoodItem>
    /** The keys of `foodItems` in insertion order, which is the order `Object.values` lists. */
    var foodOrder: seq<string>
    var weightEntries: map<string, WeightEntry>
    var userProfile: Option<Profile>

    /** Food items are keyed by id, listed once each, and no two share a barcode. */
    ghost predicate Valid()
      reads this
    {
      && OrderOf(foodOrder, foodItems)
      && KeyedById(foodItems)
      && BarcodesUnique(foodItems)
      && (forall d :: d in weightEntries ==> weightEntries[d].date == d)
    }

    /** The document a fresh database starts with. */
    constructor ()
      ensures Valid()
      ensures meals == map[] && foodItems == map[] && foodOrder == []
      ensures weightEntries == map[] && userProfile == None
    {
      meals := map[];
      foodItems := map[];
      foodOrder := [];
      weightEntries := map[];
      userProfile := None;
    }

    /** `getDailyMeals(date)` as the other handlers see it: the stored log or an empty one. */
    function DayOf(date: string): DayLog
      reads this
    {
      if date in meals then meals[date] else EmptyDay
    }

    /** `GET /api/meals/:date`: the empty log for a date never written is not stored. */
    method GetMeals(date: string) returns (r: DayLog)
      ensures date in meals ==> r == meals[date]
      ensures date !in meals ==> forall slot :: r.Get(slot) == []
    {
      r := DayOf(date);
    }

    /** `POST /api/meals/:date/:mealType`: append an entry with `quantity || 1`. */
    method AddMealEntry(date: string, mealType: string, foodItemId: Js, quantity: Js, id: string, now: string)
      returns (r: Response<MealEntry>)
      requires Valid()
      modifies this
      ensures Valid()
      ensures SlotNamed(mealType).None? ==> r == BadRequest("Invalid meal type") && meals == old(meals)
      ensures SlotNamed(mealType).Some? ==>
        var slot := SlotNamed(mealType).value;
        var day := old(DayOf(date));
        && r == Ok(MealEntry(id, foodItemId, Or(quantity, Num(1.0)), now))
        && meals == old(meals)[date := day.With(slot, day.Get(slot) + [r.body])]
      ensures foodItems == old(foodItems) && foodOrder == old(foodOrder)
      ensures weightEntries == old(weightEntries) && userProfile == old(userProfile)
    {
      var slot := SlotNamed(mealType);
      if slot.None? {
        return BadRequest("Invalid meal type");
      }
      var day := DayOf(date);
      var entry := MealEntry(id, foodItemId, Or(quantity, Num(1.0)), now);
      meals := meals[date := day.With(slot.value, day.Get(slot.value) + [entry])];
      r := Ok(entry);
    }

    /** `DELETE /api/meals/:date/:mealType/:mealEntryId`: remove the first entry with that id. */
    method RemoveMealEntry(date: string, mealType: string, entryId: string) returns (r: Response<string>)
      requires Valid()
      modifies this
      ensures Valid()
      ensures SlotNamed(mealType).None? ==> r == BadRequest("Invalid meal type") && meals == old(meals)
      ensures SlotNamed(mealType).Some? ==>
        var slot := SlotNamed(mealType).value;
        var entries := old(DayOf(date)).Get(slot);
        match IndexOfEntry(entries, entryId)
        case None => r == NotFound("Meal entry not found") && meals == old(meals)
        case Some(i) =>
          && r == Ok("Food item removed from meal")
          && meals == old(meals)[date := old(DayOf(date)).With(slot, Without(entries, i))]
      ensures foodItems == old(foodItems) && foodOrder == old(foodOrder)
      ensures weightEntries == old(weightEntries) && userProfile == old(userProfile)
    {
      var slot := SlotNamed(mealType);
      if slot.None? {
        return BadRequest("Invalid meal type");
      }
      var day := DayOf(date);
      var entries := day.Get(slot.value);
      var index := IndexOfEntry(entries, entryId);
      if index.None? {
        return NotFound("Meal entry not found");
      }
      meals := meals[date := day.With(slot.value, Without(entries, index.value))];
      r := Ok("Food item removed from meal");
    }

    /** `GET /api/food-items`: every stored item once, in insertion order. */
    method ListFoodItems() returns (r: seq<FoodItem>)
      requires Valid()
      ensures |r| == |foodItems| && |r| == |foodOrder|
      ensures forall i :: 0 <= i < |r| ==> r[i] == foodItems[foodOrder[i]]
      ensures forall k :: k in foodItems ==> foodItems[k] in r
      ensures forall x :: x in r ==> x.id in foodItems && foodItems[x.id] == x
    {
      r := ValuesOf(foodOrder, foodItems);
      ValuesOfListsEveryItemOnce(foodOrder, foodItems);
    }

    /** `GET /api/food-items/:id`. */
    method GetFoodItem(id: string) returns (r: Response<FoodItem>)
      requires Valid()
      ensures id in foodItems ==> r == Ok(foodItems[id]) && r.body.id == id
      ensures id !in foodItems ==> r == NotFound("Food item not found")
    {
      if id in foodItems {
        r := Ok(foodItems[id]);
      } else {
        r := NotFound("Food item not found");
      }
    }

    /** `POST /api/food-items`, storing the new item under the fresh id `id`. */
    method CreateFoodItem(body: FoodItemBody, id: string, now: string) returns (r: Response<FoodItem>)
      requires Valid() && id !in foodItems
      modifies this
      ensures Valid()
      ensures r == CreateOutcome(old(foodOrder), old(foodItems), body, id, now)
      ensures r.Created? ==> foodItems == old(foodItems)[id := r.body] && foodOrder == old(foodOrder) + [id]
      ensures !r.Created? ==> foodItems == old(foodItems) && foodOrder == old(foodOrder)
      ensures meals == old(meals) && weightEntries == old(weightEntries) && userProfile == old(userProfile)
    {
      r := CreateOutcome(foodOrder, foodItems, body, id, now);
      if r.Created? {
        CreateKeepsBarcodesUnique(foodOrder, foodItems, body, id, now);
        foodItems := foodItems[id := r.body];
        foodOrder := foodOrder + [id];
      }
    }

    /** `PUT /api/food-items/:id`: the supplied fields replaced, `updatedAt` set. */
    method UpdateFoodItem(id: string, body: FoodItemBody, now: string) returns (r: Response<FoodItem>)
      requires Valid()
      modifies this
      ensures Valid()
      ensures r == UpdateOutcome(old(foodOrder), old(foodItems), id, body, now)
      ensures r.Ok? ==> foodItems == old(foodItems)[id := r.body]
      ensures !r.Ok? ==> foodItems == old(foodItems)
      ensures foodOrder == old(foodOrder)
      ensures meals == old(meals) && weightEntries == old(weightEntries) && userProfile == old(userProfile)
    {
      r := UpdateOutcome(foodOrder, foodItems, id, body, now);
      if r.Ok? {
        UpdateKeepsBarcodesUnique(foodOrder, foodItems, id, body, now);
        foodItems := foodItems[id := r.body];
      }
    }

    /** `GET /api/food-items/search/:query`. */
    method SearchFoodItems(query: string) returns (r: Response<seq<FoodItem>>)
      requires Valid()
      ensures r.Ok? || r.ServerError?
      ensures r.ServerError? <==> exists k :: k in foodItems && !foodItems[k].name.Str?
      ensures r.Ok? ==> forall x :: x in r.body <==>
        x.id in foodItems && foodItems[x.id] == x && x.name.Str? && NameMatches(x.name.s, query)
      ensures r.Ok? ==> Subsequence(r.body, ValuesOf(foodOrder, foodItems))
      ensures r == SearchResult(ValuesOf(foodOrder, foodItems), query)
    {
      var values := ValuesOf(foodOrder, foodItems);
      ValuesOfListsEveryItemOnce(foodOrder, foodItems);
      r := SearchResult(values, query);
      if r.ServerError? {
        var i :| 0 <= i < |values| && !values[i].name.Str?;
        assert foodOrder[i] in foodItems;
      }
      if exists k :: k in foodItems && !foodItems[k].name.Str? {
        var k :| k in foodItems && !foodItems[k].name.Str?;
        assert foodItems[k] in values;
      }
    }

    /** `GET /api/food-items/barcode/:barcode`: the first item holding exactly that string. */
    method LookupBarcode(code: string) returns (r: Response<FoodItem>)
      requires Valid()
      ensures r.Ok? || r == NotFound("Food item not found for this barcode")
      ensures r.Ok? <==> exists k :: k in foodItems && foodItems[k].barcode == Str(code)
      ensures r.Ok? ==> r.body.barcode == Str(code) && r.body.id in foodItems && foodItems[r.body.id] == r.body
    {
      var found := FindByBarcode(foodOrder, foodItems, Str(code), None);
      if found.Some? {
        r := Ok(foodItems[found.value]);
      } else {
        r := NotFound("Food item not found for this barcode");
        forall k | k in foodItems ensures foodItems[k].barcode != Str(code) {
          assert k in foodOrder;
        }
      }
    }

    /** `GET /api/user/profile`: the stored profile, or the defaults stamped `now`. */
    method GetProfile(now: string) returns (r: Profile)
      ensures userProfile.Some? ==> r == userProfile.value
      ensures userProfile.None? ==> r.name == Str("") && r.dailyTargets == DefaultTargets
      ensures userProfile.None? ==> r.createdAt == now && r.updatedAt == now
    {
      r := if userProfile.Some? then userProfile.value else DefaultProfile(now);
    }

    /** `PUT /api/user/profile`: the profile built from the body replaces the stored one. */
    method PutProfile(body: ProfileBody, now: string) returns (r: Profile)
      requires Valid()
      modifies this
      ensures Valid()
      ensures r == ProfileFromBody(body, old(userProfile), now) && userProfile == Some(r)
      ensures meals == old(meals) && foodItems == old(foodItems) && foodOrder == old(foodOrder)
      ensures weightEntries == old(weightEntries)
    {
      r := ProfileFromBody(body, userProfile, now);
      userProfile := Some(r);
    }

    /** `GET /api/user/weight`: every entry once, in ascending order of date. */
    method ListWeights() returns (r: seq<WeightEntry>)
      requires Valid()
      ensures SortedBy(r, WeightDate)
      ensures |r| == |weightEntries|
      ensures forall i :: 0 <= i < |r| ==> r[i].date in weightEntries && weightEntries[r[i].date] == r[i]
      ensures forall d :: d in weightEntries ==> weightEntries[d] in r
    {
      var todo := weightEntries.Keys;
      var picked: seq<WeightEntry> := [];
      r := [];
      while todo != {}
        invariant todo <= weightEntries.Keys
        invariant |picked| + |todo| == |weightEntries|
        invariant forall i :: 0 <= i < |picked| ==>
          picked[i].date in weightEntries && picked[i].date !in todo && weightEntries[picked[i].date] == picked[i]
        invariant forall d :: d in weightEntries && d !in todo ==> weightEntries[d] in picked
        invariant r == SortBy(picked, WeightDate)
        decreases |todo|
      {
        var d :| d in todo;
        SortBySnoc(picked, weightEntries[d], WeightDate);
        r := InsertBy(weightEntries[d], r, WeightDate);
        picked := picked + [weightEntries[d]];
        todo := todo - {d};
      }
      SortedPermutation(picked, r);
    }

    /** What sorting the collected entries gives: all of them, once each, sorted by date. */
    lemma SortedPermutation(picked: seq<WeightEntry>, r: seq<WeightEntry>)
      requires r == SortBy(picked, WeightDate)
      requires forall i :: 0 <= i < |picked| ==> picked[i].date in weightEntries && weightEntries[picked[i].date] == picked[i]
      ensures SortedBy(r, WeightDate) && |r| == |picked|
      ensures forall i :: 0 <= i < |r| ==> r[i].date in weightEntries && weightEntries[r[i].date] == r[i]
      ensures forall x :: x in picked ==> x in r
    {
      SortByCorrect(picked, WeightDate);
      forall i | 0 <= i < |r| ensures r[i].date in weightEntries && weightEntries[r[i].date] == r[i] {
        assert r[i] in multiset(picked);
        var j :| 0 <= j < |picked| && picked[j] == r[i];
      }
      forall x | x in picked ensures x in r {
        assert x in multiset(r);
      }
    }

    /** `POST /api/user/weight`: one entry per date, a later one replacing an earlier one. */
    method PostWeight(body: WeightBody, id: string, now: string) returns (r: Response<WeightEntry>)
      requires Valid()
      modifies this
      ensures Valid()
      ensures body.date == "" || !Truthy(body.weight) ==>
        r == BadRequest("Date and weight are required") && weightEntries == old(weightEntries)
      ensures body.date != "" && Truthy(body.weight) ==>
        && r == Created(WeightEntry(id, body.date, Serialized(ParseFloat(body.weight)), now))
        && weightEntries == old(weightEntries)[body.date := r.body]
      ensures meals == old(meals) && foodItems == old(foodItems) && foodOrder == old(foodOrder)
      ensures userProfile == old(userProfile)
    {
      if body.date == "" || !Truthy(body.weight) {
        return BadRequest("Date and weight are required");
      }
      var entry := WeightEntry(id, body.date, Serialized(ParseFloat(body.weight)), now);
      weightEntries := weightEntries[body.date := entry];
      r := Created(entry);
    }

    /** `DELETE /api/user/weight/:date`. */
    method DeleteWeight(date: string) returns (r: Response<string>)
      requires Valid()
      modifies this
      ensures Valid()
      ensures date !in old(weightEntries) ==> r == NotFound("Weight entry not found") && weightEntries == old(weightEntries)
      ensures date in old(weightEntries) ==>
        r == Ok("Weight entry deleted successfully") && weightEntries == old(weightEntries) - {date}
      ensures meals == old(meals) && foodItems == old(foodItems) && foodOrder == old(foodOrder)
      ensures userProfile == old(userProfile)
    {
      if date !in weightEntries {
        return NotFound("Weight entry not found");
      }
      weightEntries := weightEntries - {date};
      r := Ok("Weight entry deleted successfully");
    }

    /** `DELETE /api/food-items/:id`: meal entries that refer to the item are kept. */
    method DeleteFoodItem(id: string) returns (r: Response<string>)
      requires Valid()
      modifies this
      ensures Valid()
      ensures id !in old(foodItems) ==>
        r == NotFound("Food item not found") && foodItems == old(foodItems) && foodOrder == old(foodOrder)
      ensures id in old(foodItems) ==>
        && r == Ok("Food item deleted successfully")
        && foodItems == old(foodItems) - {id}
        && foodOrder == RemoveKey(old(foodOrder), id)
      ensures meals == old(meals) && weightEntries == old(weightEntries) && userProfile == old(userProfile)
    {
      if id !in foodItems {
        return NotFound("Food item not found");
      }
      RemoveKeyDistinct(foodOrder, id);
      foodItems := foodItems - {id};
      foodOrder := RemoveKey(foodOrder, id);
      r := Ok("Food item deleted successfully");
    }
  }
}
