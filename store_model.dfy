/**
 * The server's persisted document: daily meal logs, food items, weight entries and the
 * user profile, with the decisions of the food-item handlers as functions on them.
 */
module StoreModel {
  import opened JsValues
  import opened Text

  // ---------------------------------------------------------------------------
  // Meal logs

  datatype Slot = Breakfast | Lunch | Dinner | Snacks

  /** `dailyMeals[mealType]` is defined exactly for the four slot names. */
  function SlotNamed(name: string): (r: Option<Slot>)
    ensures r.Some? <==> name in {"breakfast", "lunch", "dinner", "snacks"}
  {
    if name == "breakfast" then Some(Breakfast)
    else if name == "lunch" then Some(Lunch)
    else if name == "dinner" then Some(Dinner)
    else if name == "snacks" then Some(Snacks)
    else None
  }

  /** A logged portion of a food item; `foodItemId` and `quantity` are stored as sent. */
  datatype MealEntry = MealEntry(id: string, foodItemId: Js, quantity: Js, addedAt: string)

  /** One date's log: the four slots, each an ordered sequence of entries. */
  datatype DayLog = DayLog(
    breakfast: seq<MealEntry>,
    lunch: seq<MealEntry>,
    dinner: seq<MealEntry>,
    snacks: seq<MealEntry>)
  {
    function Get(slot: Slot): seq<MealEntry>
    {
      match slot
      case Breakfast => breakfast
      case Lunch => lunch
      case Dinner => dinner
      case Snacks => snacks
    }

    function With(slot: Slot, entries: seq<MealEntry>): (r: DayLog)
      ensures r.Get(slot) == entries
      ensures forall other :: other != slot ==> r.Get(other) == Get(other)
    {
      match slot
      case Breakfast => this.(breakfast := entries)
      case Lunch => this.(lunch := entries)
      case Dinner => this.(dinner := entries)
      case Snacks => this.(snacks := entries)
    }
  }

  /** The log `getDailyMeals` creates for a date it has not seen. */
  const EmptyDay := DayLog([], [], [], [])

  /** `findIndex(entry => entry.id === id)`: the first entry with that id. */
  function IndexOfEntry(entries: seq<MealEntry>, id: string): (r: Option<nat>)
    ensures r.Some? ==> r.value < |entries| && entries[r.value].id == id
    ensures r.Some? ==> forall k :: 0 <= k < r.value ==> entries[k].id != id
    ensures r.None? ==> forall k :: 0 <= k < |entries| ==> entries[k].id != id
  {
    if entries == [] then None
    else if entries[0].id == id then Some(0)
    else match IndexOfEntry(entries[1..], id)
      case Some(k) => Some(k + 1)
      case None => None
  }

  /** `splice(i, 1)`: the entry at `i` removed, the others kept in order. */
  function Without(entries: seq<MealEntry>, i: nat): (r: seq<MealEntry>)
    requires i < |entries|
    ensures |r| == |entries| - 1
    ensures forall k :: 0 <= k < i ==> r[k] == entries[k]
    ensures forall k :: i <= k < |r| ==> r[k] == entries[k + 1]
  {
    entries[..i] + entries[i + 1..]
  }

  /** Removing the entry just appended, by its id, gives back the slot as it was. */
  lemma RemoveUndoesAppend(entries: seq<MealEntry>, e: MealEntry)
    requires forall k :: 0 <= k < |entries| ==> entries[k].id != e.id
    ensures IndexOfEntry(entries + [e], e.id) == Some(|entries|)
    ensures Without(entries + [e], |entries|) == entries
  {
    assert (entries + [e])[|entries|].id == e.id;
    assert forall k :: 0 <= k < |entries| ==> (entries + [e])[k] == entries[k];
  }

  // ---------------------------------------------------------------------------
  // Food items

  /** A stored food item; numeric fields hold `parseFloat` results as written to JSON. */
  datatype FoodItem = FoodItem(
    id: string,
    name: Js,
    calories: Js,
    fat: Js,
    carbohydrates: Js,
    proteins: Js,
    unit: Js,
    barcode: Js,
    createdAt: string,
    updatedAt: Option<string>)

  /** The fields a create or update request may carry; an absent field is `Undefined`. */
  datatype FoodItemBody = FoodItemBody(
    name: Js,
    calories: Js,
    fat: Js,
    carbohydrates: Js,
    proteins: Js,
    unit: Js,
    barcode: Js)

  /** No two distinct items hold a barcode that compares `===` (the barcode invariant). */
  ghost predicate BarcodesUnique(items: map<string, FoodItem>)
  {
    forall a, b :: a in items && b in items && a != b && Truthy(items[a].barcode)
      ==> !StrictEq(items[a].barcode, items[b].barcode)
  }

  /** Food items are keyed by their own id. */
  ghost predicate KeyedById(items: map<string, FoodItem>)
  {
    forall k :: k in items ==> items[k].id == k
  }

  /** `order` lists the keys of `items` once each, in insertion order (`Object.values` order). */
  ghost predicate OrderOf(order: seq<string>, items: map<string, FoodItem>)
  {
    Distinct(order) && forall k :: k in order <==> k in items
  }

  /**
   * `Object.values(items).find(item => item.barcode === code && item.id !== except)`:
   * the first id in `order` whose item holds `code`, skipping the id `except`.
   */
  function FindByBarcode(order: seq<string>, items: map<string, FoodItem>, code: Js, except: Option<string>): (r: Option<string>)
    requires forall k :: k in order ==> k in items
    ensures r.Some? ==> r.value in order && StrictEq(items[r.value].barcode, code) && except != Some(r.value)
    ensures r.None? ==> forall k :: k in order && except != Some(k) ==> !StrictEq(items[k].barcode, code)
  {
    if order == [] then None
    else if StrictEq(items[order[0]].barcode, code) && except != Some(order[0]) then Some(order[0])
    else FindByBarcode(order[1..], items, code, except)
  }

  /** `Object.values(items)`: the items in the order their keys were inserted. */
  function ValuesOf(order: seq<string>, items: map<string, FoodItem>): (r: seq<FoodItem>)
    requires forall k :: k in order ==> k in items
    ensures |r| == |order|
    ensures forall i :: 0 <= i < |order| ==> r[i] == items[order[i]]
  {
    if order == [] then [] else [items[order[0]]] + ValuesOf(order[1..], items)
  }

  /** Every stored item is listed exactly once, and nothing else is. */
  lemma ValuesOfListsEveryItemOnce(order: seq<string>, items: map<string, FoodItem>)
    requires OrderOf(order, items) && KeyedById(items)
    ensures |ValuesOf(order, items)| == |items|
    ensures forall k :: k in items ==> items[k] in ValuesOf(order, items)
    ensures forall x :: x in ValuesOf(order, items) ==> x.id in items && items[x.id] == x
  {
    var r := ValuesOf(order, items);
    DistinctCardinality(order, items.Keys);
    forall k | k in items ensures items[k] in r {
      var i :| 0 <= i < |order| && order[i] == k;
      assert r[i] == items[k];
    }
    forall x | x in r ensures x.id in items && items[x.id] == x {
      var i :| 0 <= i < |r| && r[i] == x;
      assert order[i] in items && x == items[order[i]];
    }
  }

  /** A sequence without repetitions that lists the elements of `keys` has `|keys|` elements. */
  lemma {:induction false} DistinctCardinality(order: seq<string>, keys: set<string>)
    requires Distinct(order)
    requires forall k :: k in order <==> k in keys
    ensures |order| == |keys|
  {
    if order != [] {
      var rest := order[1..];
      forall k ensures k in rest <==> k in keys - {order[0]} {
        if k in rest {
          var j :| 0 <= j < |rest| && rest[j] == k;
          assert order[j + 1] == k;
        }
        if k in keys - {order[0]} {
          var j :| 0 <= j < |order| && order[j] == k;
          assert j != 0;
          assert rest[j - 1] == k;
        }
      }
      DistinctCardinality(rest, keys - {order[0]});
    }
  }

  /** `order` without the key `id`, the others kept in order. */
  function RemoveKey(order: seq<string>, id: string): (r: seq<string>)
    ensures forall k :: k in r <==> k in order && k != id
  {
    if order == [] then []
    else if order[0] == id then RemoveKey(order[1..], id)
    else [order[0]] + RemoveKey(order[1..], id)
  }

  /** Removing a key from a sequence without repetitions leaves one without repetitions. */
  lemma {:induction false} RemoveKeyDistinct(order: seq<string>, id: string)
    requires Distinct(order)
    ensures Distinct(RemoveKey(order, id))
  {
    if order != [] {
      RemoveKeyDistinct(order[1..], id);
      var rest := RemoveKey(order[1..], id);
      if order[0] != id {
        assert order[0] !in rest;
        var r := [order[0]] + rest;
        assert RemoveKey(order, id) == r;
        forall i, j | 0 <= i < j < |r| ensures r[i] != r[j] {
          if i == 0 {
            assert r[j] == rest[j - 1] && rest[j - 1] in rest;
          } else {
            assert r[i] == rest[i - 1] && r[j] == rest[j - 1];
          }
        }
      }
    }
  }

  /**
   * The outcome of `GET /api/food-items/search/:query` on the listed items: the items whose
   * name contains the query, ignoring case, or a 500 when some name is not a string
   * (`toLowerCase` throws).
   */
  function SearchResult(values: seq<FoodItem>, query: string): (r: Response<seq<FoodItem>>)
    ensures r.ServerError? <==> exists i :: 0 <= i < |values| && !values[i].name.Str?
    ensures r.ServerError? ==> r.error == "Failed to search food items"
    ensures r.Ok? || r.ServerError?
    ensures r.Ok? ==> |r.body| <= |values|
    ensures r.Ok? ==> forall x :: x in r.body <==> x in values && x.name.Str? && NameMatches(x.name.s, query)
    ensures r.Ok? ==> Subsequence(r.body, values)
  {
    if values == [] then Ok([])
    else if !values[0].name.Str? then ServerError("Failed to search food items")
    else
      var rest := SearchResult(values[1..], query);
      if !rest.Ok? then rest
      else if NameMatches(values[0].name.s, query) then
        assert ([values[0]] + rest.body)[1..] == rest.body;
        Ok([values[0]] + rest.body)
      else rest
  }

  /**
   * The empty query lists every item, in order. No request reaches this case: the route needs
   * a non-empty `:query` segment, and `/api/food-items/search/` is answered by
   * `GET /api/food-items/:id` with a 404.
   */
  lemma {:induction false} EmptyQueryListsAll(values: seq<FoodItem>)
    requires forall i :: 0 <= i < |values| ==> values[i].name.Str?
    ensures SearchResult(values, "") == Ok(values)
  {
    if values != [] {
      EmptyQueryListsAll(values[1..]);
      EveryNameMatchesEmpty(values[0].name.s);
      assert [values[0]] + values[1..] == values;
    }
  }

  const BarcodeTaken := "Food item with this barcode already exists"

  /** The item `POST /api/food-items` stores for a valid body. */
  function NewFoodItem(body: FoodItemBody, id: string, now: string): (r: FoodItem)
    ensures r.id == id && r.name == body.name && r.createdAt == now && r.updatedAt == None
    ensures r.calories == Serialized(ParseFloat(body.calories))
    ensures r.fat == Num(ParseFloatOr(body.fat, 0.0))
    ensures r.carbohydrates == Num(ParseFloatOr(body.carbohydrates, 0.0))
    ensures r.proteins == Num(ParseFloatOr(body.proteins, 0.0))
    ensures r.unit == if body.unit == Undefined then Str("grams") else body.unit
    ensures Truthy(body.barcode) ==> r.barcode == body.barcode
    ensures !Truthy(body.barcode) ==> r.barcode == Null
  {
    FoodItem(
      id,
      body.name,
      Serialized(ParseFloat(body.calories)),
      Num(ParseFloatOr(body.fat, 0.0)),
      Num(ParseFloatOr(body.carbohydrates, 0.0)),
      Num(ParseFloatOr(body.proteins, 0.0)),
      if body.unit == Undefined then Str("grams") else body.unit,
      Or(body.barcode, Null),
      now,
      None)
  }

  /** The outcome of `POST /api/food-items`. */
  function CreateOutcome(order: seq<string>, items: map<string, FoodItem>, body: FoodItemBody, id: string, now: string): (r: Response<FoodItem>)
    requires forall k :: k in order ==> k in items
    ensures r.Created? || r.BadRequest?
    ensures (!Truthy(body.name) || body.calories == Undefined) ==> r == BadRequest("Name and calories are required")
    ensures Truthy(body.name) && body.calories != Undefined ==>
      (r.BadRequest? <==> Truthy(body.barcode) && exists k :: k in order && StrictEq(items[k].barcode, body.barcode))
    ensures r.BadRequest? && Truthy(body.name) && body.calories != Undefined ==> r.error == BarcodeTaken
    ensures r.Created? ==> r.body == NewFoodItem(body, id, now)
  {
    if !Truthy(body.name) || body.calories == Undefined then BadRequest("Name and calories are required")
    else if Truthy(body.barcode) && FindByBarcode(order, items, body.barcode, None).Some? then BadRequest(BarcodeTaken)
    else Created(NewFoodItem(body, id, now))
  }

  /** The fields a `PUT /api/food-items/:id` assigns, one by one, when supplied. */
  function Patched(item: FoodItem, body: FoodItemBody, now: string): (r: FoodItem)
    ensures r.id == item.id && r.createdAt == item.createdAt && r.updatedAt == Some(now)
    ensures r.name == if body.name == Undefined then item.name else body.name
    ensures r.calories == if body.calories == Undefined then item.calories else Serialized(ParseFloat(body.calories))
    ensures r.fat == if body.fat == Undefined then item.fat else Serialized(ParseFloat(body.fat))
    ensures r.carbohydrates == if body.carbohydrates == Undefined then item.carbohydrates
                               else Serialized(ParseFloat(body.carbohydrates))
    ensures r.proteins == if body.proteins == Undefined then item.proteins else Serialized(ParseFloat(body.proteins))
    ensures r.unit == if body.unit == Undefined then item.unit else body.unit
    ensures r.barcode == if body.barcode == Undefined then item.barcode else Or(body.barcode, Null)
  {
    // each supplied field is assigned on its own, so the fields can be chosen independently
    FoodItem(
      item.id,
      if body.name == Undefined then item.name else body.name,
      if body.calories == Undefined then item.calories else Serialized(ParseFloat(body.calories)),
      if body.fat == Undefined then item.fat else Serialized(ParseFloat(body.fat)),
      if body.carbohydrates == Undefined then item.carbohydrates else Serialized(ParseFloat(body.carbohydrates)),
      if body.proteins == Undefined then item.proteins else Serialized(ParseFloat(body.proteins)),
      if body.unit == Undefined then item.unit else body.unit,
      if body.barcode == Undefined then item.barcode else Or(body.barcode, Null),
      item.createdAt,
      Some(now))
  }

  /** Sending the same update twice leaves the item as sending it once, apart from the time stamp. */
  lemma PatchIsIdempotent(item: FoodItem, body: FoodItemBody, first: string, second: string)
    ensures Patched(Patched(item, body, first), body, second) == Patched(item, body, second)
  {
  }

  /** An update that supplies no field only stamps `updatedAt`. */
  lemma EmptyPatchOnlyStamps(item: FoodItem, now: string)
    ensures Patched(item, FoodItemBody(Undefined, Undefined, Undefined, Undefined, Undefined, Undefined, Undefined), now)
         == item.(updatedAt := Some(now))
  {
  }

  /** The outcome of `PUT /api/food-items/:id`. */
  function UpdateOutcome(order: seq<string>, items: map<string, FoodItem>, id: string, body: FoodItemBody, now: string): (r: Response<FoodItem>)
    requires forall k :: k in order ==> k in items
    ensures r.Ok? || r.BadRequest? || r.NotFound?
    ensures r.NotFound? <==> id !in items
    ensures r.BadRequest? <==>
      && id in items && Truthy(body.barcode) && !StrictEq(body.barcode, items[id].barcode)
      && exists k :: k in order && k != id && StrictEq(items[k].barcode, body.barcode)
    ensures r.BadRequest? ==> r.error == BarcodeTaken
    ensures r.Ok? ==> r.body == Patched(items[id], body, now)
  {
    if id !in items then NotFound("Food item not found")
    else if Truthy(body.barcode) && !StrictEq(body.barcode, items[id].barcode)
      && FindByBarcode(order, items, body.barcode, Some(id)).Some? then BadRequest(BarcodeTaken)
    else Ok(Patched(items[id], body, now))
  }

  /** Creating keeps the barcode invariant, and a created item is found by its barcode. */
  lemma CreateKeepsBarcodesUnique(order: seq<string>, items: map<string, FoodItem>, body: FoodItemBody, id: string, now: string)
    requires OrderOf(order, items) && BarcodesUnique(items) && id !in items
    ensures var r := CreateOutcome(order, items, body, id, now);
      r.Created? ==> BarcodesUnique(items[id := r.body])
  {
    var r := CreateOutcome(order, items, body, id, now);
    if r.Created? {
      var m := items[id := r.body];
      forall a, b | a in m && b in m && a != b && Truthy(m[a].barcode)
        ensures !StrictEq(m[a].barcode, m[b].barcode)
      {
        if a == id {
          assert b in order;
          assert !StrictEq(items[b].barcode, body.barcode);
        } else if b == id {
          assert a in order;
        }
      }
    }
  }

  /** Updating keeps the barcode invariant. */
  lemma UpdateKeepsBarcodesUnique(order: seq<string>, items: map<string, FoodItem>, id: string, body: FoodItemBody, now: string)
    requires OrderOf(order, items) && BarcodesUnique(items) && KeyedById(items)
    ensures var r := UpdateOutcome(order, items, id, body, now);
      r.Ok? ==> BarcodesUnique(items[id := r.body])
  {
    var r := UpdateOutcome(order, items, id, body, now);
    if r.Ok? {
      var m := items[id := r.body];
      forall a, b | a in m && b in m && a != b && Truthy(m[a].barcode)
        ensures !StrictEq(m[a].barcode, m[b].barcode)
      {
        if a == id {
          assert b in order;
        } else if b == id {
          assert a in order;
        }
      }
    }
  }

  /** A barcode held by any item is refused on create. */
  lemma CreateRejectsTakenBarcode(order: seq<string>, items: map<string, FoodItem>, body: FoodItemBody, id: string, now: string, holder: string)
    requires OrderOf(order, items) && holder in items
    requires Truthy(body.name) && body.calories != Undefined
    requires Truthy(body.barcode) && StrictEq(items[holder].barcode, body.barcode)
    ensures CreateOutcome(order, items, body, id, now) == BadRequest(BarcodeTaken)
  {
    assert holder in order;
  }

  /** An item just created with a barcode is what a lookup by that barcode finds. */
  lemma CreatedItemFoundByBarcode(order: seq<string>, items: map<string, FoodItem>, body: FoodItemBody, id: string, now: string)
    requires OrderOf(order, items) && id !in items
    requires CreateOutcome(order, items, body, id, now).Created? && body.barcode.Str? && body.barcode.s != ""
    ensures var item := CreateOutcome(order, items, body, id, now).body;
      FindByBarcode(order + [id], items[id := item], body.barcode, None) == Some(id)
  {
    var item := CreateOutcome(order, items, body, id, now).body;
    FindAfterAppend(order, items, id, item, body.barcode);
  }

  lemma {:induction false} FindAfterAppend(order: seq<string>, items: map<string, FoodItem>, id: string, item: FoodItem, code: Js)
    requires forall k :: k in order ==> k in items
    requires id !in order && FindByBarcode(order, items, code, None).None?
    requires StrictEq(item.barcode, code)
    ensures FindByBarcode(order + [id], items[id := item], code, None) == Some(id)
  {
    if order != [] {
      assert (order + [id])[1..] == order[1..] + [id];
      FindAfterAppend(order[1..], items, id, item, code);
    }
  }

  /** Re-sending an item's own barcode in an update is never a conflict. */
  lemma UpdateAcceptsOwnBarcode(order: seq<string>, items: map<string, FoodItem>, id: string, body: FoodItemBody, now: string)
    requires forall k :: k in order ==> k in items
    requires id in items && body.barcode == items[id].barcode
    ensures UpdateOutcome(order, items, id, body, now) == Ok(Patched(items[id], body, now))
  {
  }

  /** A barcode another item holds is refused on update. */
  lemma UpdateRejectsOthersBarcode(order: seq<string>, items: map<string, FoodItem>, id: string, body: FoodItemBody, now: string, holder: string)
    requires OrderOf(order, items) && BarcodesUnique(items)
    requires id in items && holder in items && holder != id
    requires Truthy(body.barcode) && StrictEq(items[holder].barcode, body.barcode)
    ensures UpdateOutcome(order, items, id, body, now) == BadRequest(BarcodeTaken)
  {
    assert holder in order;
  }

  // ---------------------------------------------------------------------------
  // Weight entries and the profile

  datatype WeightEntry = WeightEntry(id: string, date: string, weight: Js, createdAt: string)

  /** `POST /api/user/weight`'s body; the server reads only `date` and `weight`. */
  datatype WeightBody = WeightBody(date: string, weight: Js, time: Js)

  datatype Targets = Targets(calories: real, proteins: real, carbohydrates: real, fat: real)

  const DefaultTargets := Targets(2000.0, 150.0, 250.0, 65.0)

  datatype Profile = Profile(name: Js, dailyTargets: Targets, createdAt: string, updatedAt: string)

  /** `PUT /api/user/profile`'s body; every other field is ignored. */
  datatype ProfileBody = ProfileBody(name: Js, dailyTargets: Js)

  /** What `GET /api/user/profile` answers when no profile was ever saved. */
  function DefaultProfile(now: string): (r: Profile)
    ensures r.name == Str("") && r.dailyTargets == Targets(2000.0, 150.0, 250.0, 65.0)
    ensures r.createdAt == now && r.updatedAt == now
  {
    Profile(Str(""), DefaultTargets, now, now)
  }

  /** The profile `PUT /api/user/profile` builds from `name` and `dailyTargets` only. */
  function ProfileFromBody(body: ProfileBody, stored: Option<Profile>, now: string): (r: Profile)
    ensures r.name == (if Truthy(body.name) then body.name else Str(""))
    ensures r.dailyTargets.calories == ParseFloatOr(Get(body.dailyTargets, "calories"), 2000.0)
    ensures r.dailyTargets.proteins == ParseFloatOr(Get(body.dailyTargets, "proteins"), 150.0)
    ensures r.dailyTargets.carbohydrates == ParseFloatOr(Get(body.dailyTargets, "carbohydrates"), 250.0)
    ensures r.dailyTargets.fat == ParseFloatOr(Get(body.dailyTargets, "fat"), 65.0)
    ensures r.createdAt == (if stored.Some? && stored.value.createdAt != "" then stored.value.createdAt else now)
    ensures r.updatedAt == now
  {
    Profile(
      Or(body.name, Str("")),
      Targets(
        ParseFloatOr(Get(body.dailyTargets, "calories"), 2000.0),
        ParseFloatOr(Get(body.dailyTargets, "proteins"), 150.0),
        ParseFloatOr(Get(body.dailyTargets, "carbohydrates"), 250.0),
        ParseFloatOr(Get(body.dailyTargets, "fat"), 65.0)),
      if stored.Some? && stored.value.createdAt != "" then stored.value.createdAt else now,
      now)
  }

  /** No saved target is ever zero: a missing, zero or unparsable one takes its default. */
  lemma SavedTargetsAreNonZero(body: ProfileBody, stored: Option<Profile>, now: string)
    ensures var t := ProfileFromBody(body, stored, now).dailyTargets;
      t.calories != 0.0 && t.proteins != 0.0 && t.carbohydrates != 0.0 && t.fat != 0.0
  {
  }

  /** A body without usable targets saves exactly the defaults that a read synthesises. */
  lemma MissingTargetsAreDefaults(name: Js, stored: Option<Profile>, now: string)
    ensures ProfileFromBody(ProfileBody(name, Undefined), stored, now).dailyTargets
         == DefaultProfile(now).dailyTargets
  {
  }

  /** The JSON object a client sends back for targets it read. */
  function TargetsObject(t: Targets): Js
  {
    Obj(map["calories" := Num(t.calories), "proteins" := Num(t.proteins),
            "carbohydrates" := Num(t.carbohydrates), "fat" := Num(t.fat)])
  }

  /** Sending back the targets of a profile that was read keeps them, as no saved target is zero. */
  lemma TargetsRoundTrip(p: Profile, name: Js, now: string)
    requires p.dailyTargets.calories != 0.0 && p.dailyTargets.proteins != 0.0
    requires p.dailyTargets.carbohydrates != 0.0 && p.dailyTargets.fat != 0.0
    ensures ProfileFromBody(ProfileBody(name, TargetsObject(p.dailyTargets)), Some(p), now).dailyTargets
         == p.dailyTargets
  {
  }

  // ---------------------------------------------------------------------------
  // Responses

  /** A handler's answer: 200, 201, 400, 404 or 500 with an error message. */
  datatype Response<T> =
    | Ok(body: T)
    | Created(body: T)
    | BadRequest(error: string)
    | NotFound(error: string)
    | ServerError(error: string)
}
