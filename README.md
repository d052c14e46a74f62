# Diet tracker — a Dafny model of its core

The diet tracker is a small web application. It has three parts:

- **An Express server** keeps one JSON document in lowdb. The document holds four collections:
  - meal logs per date, with four slots: breakfast, lunch, dinner and snacks;
  - the food database, with nutrients per 100 g and an optional barcode;
  - one user profile with daily targets;
  - weight entries keyed by date.
- **A React client** logs meals and adds up nutrients. It also keeps a personal weight history and resolves barcodes against the local database and OpenFoodFacts.
- **A small wrapper** around `fetch` retries failed requests.

This project models that core in Dafny and proves what it promises.

- **The server** (`Server`) is a class `Db` whose fields are the persisted collections. Each route handler is a method. Its `ensures` gives the exact new state and response, and every method keeps the invariant `Valid`:
  - food items are keyed by id;
  - `Object.values` order is kept;
  - no two items share a barcode;
  - weight entries are keyed by their date.

  The pure decisions the handlers make live in `StoreModel`, with lemmas beside them: which create or update is refused, what is stored, and how profile targets default.
- **JavaScript values** (`JsValues`) are modelled as a datatype with `undefined`, `null`, booleans, numbers, `NaN`, strings and objects. The module also models truthiness, `||`, `===`, property reads, `parseFloat`, and the `NaN` → `null` of `JSON.stringify`. The client code relies on these.
- **The retry wrapper** (`Api`):
  - `FetchWithRetry` is the `for` loop over attempts, proved equal to a recursive reference `Attempts`.
  - The retry policy is proved about `Attempts`: the bounds, an immediate return, the waits after exceptions, and the fixed parameters of the four wrappers.
- **Nutrient totals** (`Nutrition`, `MealCard`, `NutritionSummary`, `CopyMeal`): the accumulating loops are methods proved against the specification `Total` and the rounding `Rounded`. `Total` distributes over concatenation, and entries whose fetch fails are skipped.
- **Weights** (`Weighings`, `WeightTrend`, `UserProfile`): the date sort is an insertion sort proved sorted and a permutation (`Sorting`). On top of it sit the profile page's statistics and the chart's points, trend and views.
- **Profile editing** (`UserProfile`): the dotted-path update, the personal-info save payload and the weight-entry guard are functions on plain object maps. They are tied to what the server then stores.
- **Food dialogs** (`FoodDatabase`, `FoodForm`, `OpenFoodFacts`, `AddFoodModal`, `AddFoodToDatabaseModal`):
  - the search filters;
  - the new-food form's check and its request body;
  - the normalisation of an OpenFoodFacts document;
  - each dialog's barcode-scan handler, as a transition on the dialog's state. The answers of the server and of OpenFoodFacts are parameters.

Every handler begins with `db.read()`, which reloads the document from the file. A change the handler makes in memory without a `db.write()` is therefore lost. The model's `Db` fields hold the document as written. So `GetMeals` on a date never written returns the four empty slots and stores nothing. `getDailyMeals` does insert the empty log into memory (`backend/server.js:31-42`), but that is discarded. Where the in-memory change is written, as in `AddMealEntry`, the model stores it.

Calls into code the model cannot see become parameters:

- fresh ids (`uuidv4()`) and the clock (`new Date().toISOString()`) are `id` and `now`;
- a fetch is a function from the attempt number to its outcome;
- a food lookup is a function from id to `Found`, `NotOk` or `Failed`;
- the local barcode answer is a `LocalLookup`;
- the OpenFoodFacts document is an `Option<Js>`, `None` when the request threw;
- a request's status is an `Option<int>`, `None` when it threw;
- a copy's failure is a predicate on the index of the item being copied.

## Model

| member | source | states |
|---|---|---|
| `JsValues.Or` | frontend/src/components/AddFoodModal.jsx:84-90 | JavaScript's or-operator gives its left operand when that is truthy and its right operand otherwise |
| `JsValues.Truthy` | backend/server.js:160 | a value is truthy exactly when it is none of `undefined`, `null`, `false`, `0`, `NaN` and `""` |
| `JsValues.StrictEq` | backend/server.js:169 | `===` between values read from JSON holds only between equal values, and never for NaN or an object |
| `JsValues.StrictEqLaws` | backend/server.js:169 | `===` is symmetric, and a value is `===` itself exactly when it is neither NaN nor an object |
| `JsValues.Get` | backend/server.js:318-321 | a property read gives the stored value when the object has the key, and `undefined` when it lacks it or the value is not an object |
| `JsValues.Serialized` | backend/server.js:178-188 | `JSON.stringify` writes NaN as `null` and keeps every other value; the result is never NaN |
| `JsValues.ParseFloat` | backend/server.js:181 | `parseFloat` yields a number or NaN, and gives a number back unchanged |
| `JsValues.ParseFloatOr` | backend/server.js:182-184 | `parseFloat` with a fallback `d` gives the parsed number when it is a nonzero number, and `d` when it is 0 or NaN |
| `JsValues.ParseNumOfDigits` | backend/server.js:181 | a string of decimal digits parses to its decimal value |
| `JsValues.ParseNumOfBlank` | backend/server.js:181 | a string of white space parses to nothing, so `parseFloat` gives NaN |
| `Text.Lower` | backend/server.js:253-255 | `toLowerCase` keeps the length and lowers each character |
| `Text.Trim` | frontend/src/components/AddFoodModal.jsx:174-180 | the trimmed string is no longer than the input and, unless empty, starts and ends with a character that is not white space |
| `Text.TrimStripsOnlySpace` | frontend/src/components/FoodDatabase.jsx:37 | the trimmed string is a slice of the input with only white space cut from either end |
| `Text.SubsequenceReflexive` | frontend/src/components/AddFoodModal.jsx:49-50 | the unfiltered list is trivially in its own order |
| `Text.NameMatches` | backend/server.js:253-255 | a name matches only a query no longer than itself, and matches the empty query |
| `Text.TrimEnd` | frontend/src/components/FoodDatabase.jsx:37 | the trimmed string is a prefix that does not end in white space |
| `Text.BlankIffAllSpace` | frontend/src/components/FoodDatabase.jsx:37 | `trim() === ""` holds exactly when every character is white space |
| `Text.NonSpaceSurvivesTrimEnd` | frontend/src/components/FoodDatabase.jsx:37 | trimming never removes a character that is not white space |
| `Text.LowerIdempotent` | backend/server.js:253-255 | lowering twice is lowering once |
| `Text.NameMatchesIgnoresCase` | backend/server.js:253-255 | the name match is unchanged when either side is lowered first |
| `Text.EveryNameMatchesEmpty` | backend/server.js:253-255 | every name contains the empty query |
| `Text.DateLeTotal` | backend/server.js:343-345 | any two ISO dates are ordered one way or the other |
| `Text.DateLeTransitive` | backend/server.js:343-345 | the date order is transitive |
| `Text.DateLeAntisymmetric` | backend/server.js:343-345 | two dates ordered both ways are equal |
| `Text.DateLeReflexive` | backend/server.js:343-345 | every date is ordered with itself |
| `Sorting.InsertBy` | backend/server.js:343-345 | inserting one element grows the sequence by one |
| `Sorting.SortBy` | backend/server.js:343-345 | the sort keeps the length |
| `Sorting.SortByCorrect` | backend/server.js:343-345 | the sort is ascending by date and a permutation of its input |
| `Sorting.SortByLastIsLatest` | frontend/src/components/UserProfile.jsx:345-349 | the last sorted element is an input element with the latest date |
| `Sorting.SortByFirstIsEarliest` | frontend/src/components/UserProfile.jsx:345-348 | the first sorted element is an input element with the earliest date |
| `StoreModel.SlotNamed` | backend/server.js:68-70 | a meal type is accepted exactly when it is breakfast, lunch, dinner or snacks |
| `StoreModel.DayLog.With` | backend/server.js:79 | replacing one slot's list changes that slot and no other |
| `StoreModel.IndexOfEntry` | backend/server.js:101-107 | `findIndex` gives the first entry with the id, or none when no entry has it |
| `StoreModel.Without` | backend/server.js:109 | `splice(i, 1)` drops entry `i` and keeps the rest in order |
| `StoreModel.RemoveUndoesAppend` | backend/server.js:59-116 | removing an entry just added restores the slot |
| `StoreModel.FindByBarcode` | backend/server.js:167-176 | the uniqueness scan finds an item, other than the one excluded, whose barcode is `===` the code, or none exists |
| `StoreModel.ValuesOf` | backend/server.js:119-127 | `Object.values` lists the items in key order |
| `StoreModel.ValuesOfListsEveryItemOnce` | backend/server.js:119-127 | the listing holds every stored item, once each, and nothing else |
| `StoreModel.RemoveKey` | backend/server.js:412 | deleting a key removes exactly that key from the order |
| `StoreModel.RemoveKeyDistinct` | backend/server.js:412 | the order stays free of duplicates after a delete |
| `StoreModel.SearchResult` | backend/server.js:247-261 | the search is a 200 or a 500: a 500 exactly when some name is not a string, otherwise exactly the items whose name contains the query ignoring case, in listing order |
| `StoreModel.EmptyQueryListsAll` | backend/server.js:247-261 | an empty query would list every item in order; no request reaches it, since `/api/food-items/search/` is routed to `GET /api/food-items/:id` |
| `StoreModel.NewFoodItem` | backend/server.js:178-188 | a created item gets the fresh id, the parsed calories, the macros parsed or 0, the unit or `"grams"`, and an empty barcode as `null` |
| `StoreModel.CreateOutcome` | backend/server.js:158-188 | a create is a 201 or a 400; a missing name or calories gives the "required" 400; otherwise a 400 exactly when a truthy barcode is `===` some stored item's; an accepted create stores `NewFoodItem` |
| `StoreModel.Patched` | backend/server.js:227-234 | an update changes only the fields the body supplies and sets `updatedAt` |
| `StoreModel.UpdateOutcome` | backend/server.js:205-236 | an update is a 200, 400 or 404; a 404 exactly for an unknown id; a 400 exactly when a truthy barcode, other than the item's own, is `===` another stored item's; an accepted update is `Patched` |
| `StoreModel.PatchIsIdempotent` | backend/server.js:227-234 | sending the same update twice gives the item sending it once gives, apart from the time stamp |
| `StoreModel.EmptyPatchOnlyStamps` | backend/server.js:227-236 | an update that supplies no field changes nothing but `updatedAt` |
| `StoreModel.CreateKeepsBarcodesUnique` | backend/server.js:148-197 | a create never makes two items share a barcode |
| `StoreModel.UpdateKeepsBarcodesUnique` | backend/server.js:200-244 | an update never makes two items share a barcode |
| `StoreModel.CreateRejectsTakenBarcode` | backend/server.js:167-176 | a create whose barcode another item holds gets a 400 |
| `StoreModel.CreatedItemFoundByBarcode` | backend/server.js:264-283 | a created item with a barcode is what the barcode lookup then finds |
| `StoreModel.FindAfterAppend` | backend/server.js:264-283 | after appending an item the scan finds it when nothing earlier matched |
| `StoreModel.UpdateAcceptsOwnBarcode` | backend/server.js:215-224 | re-sending an item's own barcode is never a conflict |
| `StoreModel.UpdateRejectsOthersBarcode` | backend/server.js:215-224 | taking another item's barcode gets a 400 |
| `StoreModel.DefaultProfile` | backend/server.js:286-307 | a missing profile reads as an empty name with targets 2000/150/250/65 |
| `StoreModel.ProfileFromBody` | backend/server.js:310-334 | a saved profile has the name or `""`, each target parsed or its default, `createdAt` kept when one existed, and `updatedAt` now |
| `StoreModel.SavedTargetsAreNonZero` | backend/server.js:310-334 | no saved target is ever 0 |
| `StoreModel.MissingTargetsAreDefaults` | backend/server.js:310-334 | a body without targets saves the four defaults |
| `StoreModel.TargetsRoundTrip` | backend/server.js:310-334 | saving the targets of a stored profile saves the same targets |
| `Server.Db.constructor` | backend/server.js:18-23 | the database starts with every collection empty and no profile |
| `Server.Db.GetMeals` | backend/server.js:46-56 | the stored log for a date, or four empty slots |
| `Server.Db.AddMealEntry` | backend/server.js:59-86 | an unknown slot gets a 400 and changes nothing; otherwise one entry, with quantity 1 when none was given, is appended to that slot of that date only |
| `Server.Db.RemoveMealEntry` | backend/server.js:89-116 | an unknown slot gets a 400, an unknown entry a 404, and otherwise the first entry with the id is removed from that slot only |
| `Server.Db.ListFoodItems` | backend/server.js:119-127 | every item once, in insertion order |
| `Server.Db.GetFoodItem` | backend/server.js:130-145 | the item with the id, or a 404 |
| `Server.Db.CreateFoodItem` | backend/server.js:148-197 | a refused create changes nothing; an accepted one stores the new item under the fresh id, at the end of the order |
| `Server.Db.UpdateFoodItem` | backend/server.js:200-244 | a refused update changes nothing; an accepted one replaces that item only |
| `Server.Db.SearchFoodItems` | backend/server.js:247-261 | a 200 or a 500: a 500 exactly when some stored name is not a string, otherwise exactly the stored items whose name contains the query ignoring case, in `Object.values` order |
| `Server.Db.LookupBarcode` | backend/server.js:264-283 | the stored item with exactly that barcode, or a 404 exactly when none has it |
| `Server.Db.GetProfile` | backend/server.js:286-307 | the stored profile, or the default one, never written |
| `Server.Db.PutProfile` | backend/server.js:310-334 | the profile is replaced by the one built from the body, and nothing else changes |
| `Server.Db.ListWeights` | backend/server.js:337-351 | every weight entry once, ascending by date |
| `Server.Db.SortedPermutation` | backend/server.js:343-345 | sorting the entries keeps each entry and orders them by date |
| `Server.Db.PostWeight` | backend/server.js:354-379 | a missing date or falsy weight gets a 400; otherwise the entry for that date is replaced, so a date has at most one entry |
| `Server.Db.DeleteWeight` | backend/server.js:382-397 | an unknown date gets a 404; otherwise that date's entry alone is removed |
| `Server.Db.DeleteFoodItem` | backend/server.js:401-418 | an unknown id gets a 404; otherwise that item alone is removed and the meal logs are untouched |
| `Api.FetchWithRetry` | frontend/src/lib/api.js:2-33 | the loop makes the calls and waits of `Attempts`; with at least one attempt it always returns or throws, after 1 to `maxRetries` calls |
| `Api.CallsBounded` | frontend/src/lib/api.js:8-32 | at least one and at most the remaining attempts are made, and the loop never falls off its end |
| `Api.FinalResponseReturnedAtOnce` | frontend/src/lib/api.js:13-15 | an ok or non-5xx first answer is returned after one call with no wait |
| `Api.ExceptionWaits` | frontend/src/lib/api.js:21-31 | at most one wait per attempt |
| `Api.RunShape` | frontend/src/lib/api.js:8-32 | every attempt before the last was a 5xx or an exception, the last decided the result, and the waits are `delay * k` after each exception on attempt `k` |
| `Api.AlwaysFailingThrows` | frontend/src/lib/api.js:18-31 | when every attempt throws, all attempts are made and the last exception is thrown |
| `Api.ApiGet` | frontend/src/lib/api.js:36 | a GET with no options |
| `Api.ApiPost` | frontend/src/lib/api.js:39-46 | a POST with a JSON content type and the body |
| `Api.ApiPut` | frontend/src/lib/api.js:49-56 | a PUT with a JSON content type and the body |
| `Api.ApiDelete` | frontend/src/lib/api.js:59-62 | a DELETE with no body |
| `Api.WrapperPolicy` | frontend/src/lib/api.js:36-62 | each wrapper makes one to three attempts and waits at most twice, 1 s then 2 s |
| `Nutrition.ItemsOf` | frontend/src/components/MealCard.jsx:27 | a slot missing from the day log reads as empty, otherwise as the list written last under its key; the copy dialog's selection (CopyMealModal.jsx:54-60) reads it the same way |
| `Nutrition.Contribution` | frontend/src/components/NutritionSummary.jsx:38-46 | an entry adds each macro times quantity / 100 when its food was fetched, and nothing otherwise |
| `Nutrition.SameLookupSameContribution` | frontend/src/components/NutritionSummary.jsx:38-46 | an entry's share depends only on its own food's lookup |
| `Nutrition.Total` | frontend/src/components/NutritionSummary.jsx:33-53 | no entries sum to zero |
| `Nutrition.TotalSnoc` | frontend/src/components/NutritionSummary.jsx:33-46 | one more entry adds its own share to the sums |
| `Nutrition.TotalAppend` | frontend/src/components/NutritionSummary.jsx:30-54 | the total of two lists is the sum of their totals |
| `Nutrition.SkippedEntry` | frontend/src/components/NutritionSummary.jsx:38-52 | an entry whose fetch is not ok or throws adds nothing, and the others are still summed |
| `Nutrition.TotalDependsOnlyOnEntries` | frontend/src/components/NutritionSummary.jsx:33-53 | lookups that agree on every entry's share give the same total |
| `Nutrition.Round` | frontend/src/components/NutritionSummary.jsx:57 | `Math.round` is within half a unit, halves going up |
| `Nutrition.RoundTenth` | frontend/src/components/NutritionSummary.jsx:58-60 | `Math.round(x * 10) / 10` is within 0.05 and has one decimal |
| `Nutrition.Rounded` | frontend/src/components/NutritionSummary.jsx:56-61 | calories are within half a unit as a whole number, and the three gram values within 0.05 with one decimal |
| `Nutrition.RoundedZero` | frontend/src/components/MealCard.jsx:38-46 | zero totals round to zero |
| `MealCard.CalculateNutrition` | frontend/src/components/MealCard.jsx:37-79 | the loop's result is the rounded total of the found entries, and an empty list gives zeros |
| `MealCard.EntryLine` | frontend/src/components/MealCard.jsx:254-261 | each line rounds its four scaled values to whole numbers, on its own |
| `MealCard.LinesNeedNotAddUp` | frontend/src/components/MealCard.jsx:254-261 | the rounded lines can differ from the rounded meal total |
| `NutritionSummary.DayTotalIsSumOfSlots` | frontend/src/components/NutritionSummary.jsx:30-54 | the day total is the sum of the four slots' totals |
| `NutritionSummary.CalculateDailyNutrition` | frontend/src/components/NutritionSummary.jsx:15-67 | the nested loops give the rounded total over exactly the four slots; a failed meals fetch leaves the previous numbers |
| `NutritionSummary.AddEntries` | frontend/src/components/NutritionSummary.jsx:33-53 | the inner loop adds one slot's total to the running sums |
| `NutritionSummary.NutritionCard` | frontend/src/components/NutritionSummary.jsx:109-158 | the percentage is `min(current / target * 100, 100)`; the flag holds exactly when current exceeds target; the remaining amount is never negative; the target is shown exactly when current is not positive |
| `NutritionSummary.PercentOfTarget` | frontend/src/components/NutritionSummary.jsx:109 | the share of a positive target is below 100 percent exactly when the target is not reached |
| `NutritionSummary.Cards` | frontend/src/components/NutritionSummary.jsx:177-206 | the calories, protein, carbs and fat cards measure against 2000, 150, 250 and 65: each is over target exactly above its target, its bar is the share of the target or full, and it shows the target exactly when nothing is eaten |
| `CopyMeal.MealLabel` | frontend/src/components/CopyMealModal.jsx:152-155 | a known slot key gives its label, any other key itself |
| `CopyMeal.LabelIn` | frontend/src/components/CopyMealModal.jsx:152-155 | `find` gives the label of the first row with the key, or the key itself |
| `CopyMeal.CollectIds` | frontend/src/components/CopyMealModal.jsx:73-76 | the ids are distinct and are exactly the food ids mentioned in the slot lists `Object.values` gives after `JSON.parse`, where a repeated key holds its last list |
| `CopyMeal.FetchFoodItemDetails` | frontend/src/components/CopyMealModal.jsx:87-107 | only uncached ids are requested, every cached entry is kept, and an id is added exactly when its fetch succeeds |
| `CopyMeal.CalculateMealNutrition` | frontend/src/components/CopyMealModal.jsx:127-150 | the loop's result is the rounded total over the cached items |
| `CopyMeal.CachedTotalsMatchFetched` | frontend/src/components/CopyMealModal.jsx:87-150 | for a fixed answer per id, a cache filled from the fetches gives the same total as fetching each item |
| `CopyMeal.HandleCopyMeal` | frontend/src/components/CopyMealModal.jsx:109-125 | an empty selection alerts and copies nothing; otherwise the items are copied in order; a failure stops the loop, keeps the earlier copies, alerts and leaves the dialog open |
| `Weighings.ByDate` | frontend/src/components/UserProfile.jsx:345-347 | the sorted copy is ascending by date and a permutation of the entries |
| `Weighings.ByDateEnds` | frontend/src/components/UserProfile.jsx:348-349 | the ends of the sorted copy are entries with the earliest and the latest date |
| `UserProfile.GetWeightStats` | frontend/src/components/UserProfile.jsx:342-366 | no stats without entries; otherwise current, total and recent come from the sorted copy, with recent 0 for a single entry, and the count is the number of entries |
| `UserProfile.StatsSpanTheDates` | frontend/src/components/UserProfile.jsx:345-352 | current is the latest entry's weight and total is latest minus earliest |
| `UserProfile.RecentIsFromAnEarlierEntry` | frontend/src/components/UserProfile.jsx:354-358 | recent is the weight of an entry with the latest date minus that of the latest of the other entries |
| `UserProfile.SplitPath` | frontend/src/components/UserProfile.jsx:324-325 | `split(".")` gives a parent and a child without dots |
| `UserProfile.SplitOfPath` | frontend/src/components/UserProfile.jsx:324-325 | `parent.child` splits back into its parent and child |
| `UserProfile.SpreadFields` | frontend/src/components/UserProfile.jsx:326-332 | an object spread copies exactly the properties a read of the value finds, and nothing from a value that is not an object |
| `UserProfile.UpdateProfile` | frontend/src/components/UserProfile.jsx:323-339 | a plain field is replaced; a dotted one replaces only the nested field, keeps its siblings, and keeps every other field |
| `UserProfile.TargetPath` | frontend/src/components/UserProfile.jsx:595-647 | editing any of the four targets (calories, proteins, carbohydrates, fat) writes the value under that key of the body's targets |
| `UserProfile.SavedTargetOf` | backend/server.js:317-322 | each saved target is `parseFloat` of the sent value, or its own default when that is 0 or NaN |
| `UserProfile.EditedTargetIsSaved` | frontend/src/components/UserProfile.jsx:94-128 | a nonzero value typed into any target's input is the target the server saves, and the other three targets are saved as before |
| `UserProfile.ClearedTargetIsSavedAsDefault` | frontend/src/components/UserProfile.jsx:595-647 | clearing any target's input saves that target's default (2000, 150, 250 or 65) |
| `UserProfile.StartEditing` | frontend/src/components/UserProfile.jsx:130-137 | editing starts with the profile's name, initial weight and height |
| `UserProfile.CancelEditing` | frontend/src/components/UserProfile.jsx:139-146 | cancelling resets to an empty name and null weight and height |
| `UserProfile.UpdateTemp` | frontend/src/components/UserProfile.jsx:209-214 | a personal field edit changes that field only |
| `UserProfile.SavePayload` | frontend/src/components/UserProfile.jsx:170-175 | the payload is the profile with only name, initial weight and height replaced |
| `UserProfile.Stringified` | frontend/src/lib/api.js:49-56 | the JSON text of the payload leaves out exactly the keys whose value is `undefined` and keeps every other value |
| `UserProfile.UneditedSaveIsIdentity` | frontend/src/components/UserProfile.jsx:130-182 | saving without an edit sends, as JSON, the profile unchanged, for every profile, so the server saves what it would save for the profile itself |
| `UserProfile.SavedProfileIgnoresMeasurements` | frontend/src/components/UserProfile.jsx:158-207 | the profile the server saves does not depend on the initial weight or height sent; it keeps the targets and takes the edited name |
| `UserProfile.WeightSubmission` | frontend/src/components/UserProfile.jsx:216-231 | an empty weight, date or time sends nothing; otherwise the body has the date, the parsed weight and the time |
| `UserProfile.SubmissionAcceptedIffNonzero` | backend/server.js:354-379 | a sent weight is stored exactly when it parses to a nonzero number |
| `WeightTrend.ChartData` | frontend/src/components/WeightTrendChart.jsx:43-52 | one point per entry, ascending by date: the points' dates and weights are a permutation of the entries |
| `WeightTrend.GetTrend` | frontend/src/components/WeightTrendChart.jsx:55-67 | no trend under two points; up exactly when last ≥ first; the value is the absolute change; the percentage is that over the first weight, absent when it is 0 |
| `WeightTrend.ViewOf` | frontend/src/components/WeightTrendChart.jsx:92-131 | no entries gives the no-data view, one entry its weight, more the chart with its trend, latest point and count |
| `WeightTrend.LatestIsLatestEntry` | frontend/src/components/WeightTrendChart.jsx:207 | "latest" is the weight of an entry with the latest date |
| `WeightTrend.TrendFollowsDates` | frontend/src/components/WeightTrendChart.jsx:44-63 | the direction compares the later entry with the earlier whatever order they arrive in |
| `FoodDatabase.FilterNonBlank` | frontend/src/components/FoodDatabase.jsx:40-46 | an item is kept exactly when its name matches ignoring case or its barcode contains the query; the result is an order-preserving subsequence; none when the test throws |
| `FoodDatabase.Shown` | frontend/src/components/FoodDatabase.jsx:43-44 | the filter's test on an item with a string name: the name matches ignoring case, or a truthy string barcode contains the query as typed |
| `FoodDatabase.Throws` | frontend/src/components/FoodDatabase.jsx:43-44 | the test throws for a name that is not a string, or for a truthy barcode that is not a string when the name does not match |
| `FoodDatabase.FilteredItems` | frontend/src/components/FoodDatabase.jsx:36-48 | a blank query shows every item, another query the filter |
| `FoodDatabase.FilterAgreesWithSearch` | frontend/src/components/FoodDatabase.jsx:40-46 | without barcodes the page filter keeps exactly what the server search answers |
| `FoodDatabase.BarcodeQueryFindsItem` | frontend/src/components/FoodDatabase.jsx:43-44 | typing an item's barcode shows that item |
| `FoodDatabase.WithBarcodes` | frontend/src/components/FoodDatabase.jsx:150 | the barcode count is the number of items with a truthy barcode: at most the total, equal exactly when all have one, 0 exactly when none do |
| `FoodDatabase.HandleDeleteFood` | frontend/src/components/FoodDatabase.jsx:50-72 | declining sends nothing; a 2xx refreshes; anything else alerts |
| `FoodForm.RequestBody` | frontend/src/components/AddNewFoodModal.jsx:46-53 | calories are parsed, the other macros parsed or 0, and an empty barcode sent as `null` |
| `FoodForm.ParseTwice` | backend/server.js:178-188 | the server's parse of a value the client already parsed gives the same number |
| `FoodForm.CheckedFormPassesServerCheck` | frontend/src/components/AddNewFoodModal.jsx:33-53 | a form that passes its own check is refused by the server only for a taken barcode |
| `FoodForm.StoredAsSent` | frontend/src/components/AddNewFoodModal.jsx:46-53 | the stored item holds the numbers the form sent, with unit grams |
| `FoodForm.Submit` | frontend/src/components/AddNewFoodModal.jsx:30-76 | a missing name or calories alerts and sends nothing; a 2xx resets the form; a failure keeps it and alerts |
| `FoodForm.EmptyFormIsRefused` | frontend/src/components/AddNewFoodModal.jsx:33-36 | the empty form sends nothing |
| `FoodForm.HandleClose` | frontend/src/components/AddNewFoodModal.jsx:78-82 | the dialog closes exactly when it is not submitting |
| `OpenFoodFacts.LocalLookupOf` | frontend/src/components/AddFoodModal.jsx:111-155 | a 2xx is a hit carrying the item, and a 404 is a miss |
| `OpenFoodFacts.Nutrient` | frontend/src/components/AddFoodModal.jsx:85-90 | the per-100 g value, else the plain value, else 0 |
| `OpenFoodFacts.Normalize` | frontend/src/components/AddFoodModal.jsx:71-99 | a product exactly when `status === 1` and one is present; the name or `Product <barcode>`, the four nutrients and the barcode |
| `OpenFoodFacts.NormalizedPassesFormCheck` | frontend/src/components/AddFoodModal.jsx:78-94 | a normalised product always has a name and calories |
| `OpenFoodFacts.ProductBody` | frontend/src/components/AddFoodModal.jsx:126-135 | the posted body is the six fields as `JSON.stringify` writes them |
| `OpenFoodFacts.MissedProductIsCreated` | frontend/src/components/AddFoodModal.jsx:119-147 | a remote product for a barcode the store lacks is accepted and carries that barcode |
| `AddFoodModal.Open` | frontend/src/components/AddFoodModal.jsx:39-46 | opening empties the query, clears the selection and sets 100 g |
| `AddFoodModal.NoticeText` | frontend/src/components/AddFoodModal.jsx:120-155 | the no-data notice names the scanned barcode between its fixed opening and closing text |
| `AddFoodModal.FilteredItems` | frontend/src/components/AddFoodModal.jsx:48-58 | a blank query lists all items; otherwise exactly the items whose name matches ignoring case, in their order; none when a name is not a string |
| `AddFoodModal.HandleAddFood` | frontend/src/components/AddFoodModal.jsx:60-64 | the food is added exactly when one is selected and the quantity is positive, with its id and quantity |
| `AddFoodModal.Scanned` | frontend/src/components/AddFoodModal.jsx:101-160 | a local hit is selected; after a 404 a remote product is created and, on any 2xx answer, selected; a failed create or a remote miss shows its notice; another status or an exception shows the error; the search text changes only on the two paths that select an item |
| `AddFoodModal.LocalHitMakesNoRemoteCall` | frontend/src/components/AddFoodModal.jsx:111-116 | after a local hit nothing depends on OpenFoodFacts or on a create |
| `AddFoodModal.ScanCreatesAndSelects` | frontend/src/components/AddFoodModal.jsx:119-147 | an unknown barcode known to OpenFoodFacts ends with a new item selected that carries the barcode |
| `AddFoodModal.ManualSubmit` | frontend/src/components/AddFoodModal.jsx:173-182 | a blank entry alerts and changes nothing; otherwise the trimmed code is scanned and the entry cleared |
| `AddFoodModal.ManualBarcodeIsTrimmed` | frontend/src/components/AddFoodModal.jsx:174-180 | the scanned manual code is non-empty with no white space at either end |
| `AddFoodToDatabaseModal.NoticeText` | frontend/src/components/AddFoodToDatabaseModal.jsx:146-182 | each notice's text; none only for the already-exists notice of a name that is not a string |
| `AddFoodToDatabaseModal.Open` | frontend/src/components/AddFoodToDatabaseModal.jsx:35-50 | opening returns to the options screen with no notice, no search running and an empty form |
| `AddFoodToDatabaseModal.Scanned` | frontend/src/components/AddFoodToDatabaseModal.jsx:135-186 | a hit warns and keeps mode and form; a miss fills the form from the product, or sets only the barcode, and opens the create screen; an error keeps the mode; no search runs afterwards |
| `AddFoodToDatabaseModal.PrefilledNumbersAreKept` | frontend/src/components/AddFoodToDatabaseModal.jsx:73-78 | numbers pre-filled from a product are sent unchanged when the form is saved as it is |
| `AddFoodToDatabaseModal.MissHasScannedBarcode` | frontend/src/components/AddFoodToDatabaseModal.jsx:155-176 | after a local miss the form carries the scanned barcode |
| `AddFoodToDatabaseModal.HandleCreateFood` | frontend/src/components/AddFoodToDatabaseModal.jsx:59-103 | the shared submission; the dialog closes exactly when the food was added, and then the form is empty |
| `AddFoodToDatabaseModal.ManualSubmit` | frontend/src/components/AddFoodToDatabaseModal.jsx:200-209 | a blank entry alerts and changes nothing; otherwise the trimmed code is scanned and the entry cleared |

## Left out

- lowdb file I/O, Express routing, CORS and JSON parsing, beyond the NaN → `null` of `JSON.stringify`. `uuidv4()` and the clock are parameters.
- Concurrency. Two requests interleaving their read-modify-write of the document, and React's asynchronous state updates, are not modelled; every handler runs alone.
- Failures that become a 500 (a failed read or write, a throw in a handler) are not modelled. The one exception inside the model's reach is kept: the search's `toLowerCase` on a name that is not a string.
- IEEE-754 arithmetic. Numbers are `real`, so there is no overflow, rounding of sums, or `Infinity`. On the client, NaN is not modelled either: `Entry.quantity`, `Macros` and `Weighing.weight` are reals, so a stored `quantity: "abc"` or a `null` weight, which makes the page's sums NaN or 0, is outside the model.
- `JsValues.ParseFloat`: `parseFloat` reads a decimal prefix (white space, sign, digits, fraction, exponent). `Infinity` is not read, and the result is the exact decimal rather than the nearest double.
- Keys that are names of `Object.prototype` properties (`"constructor"`, `"__proto__"`) are not modelled. A key is present exactly when it was stored.
- Unicode case mapping. `toLowerCase` lowers ASCII letters only. White space, for `trim` and `parseFloat`, is the set ECMAScript names: tab, vertical tab, form feed, space, U+00A0, U+1680, U+2000 to U+200A, U+202F, U+205F, U+3000, U+FEFF, and the line terminators line feed, carriage return, U+2028 and U+2029.
- Dates are ISO strings compared as text, which is the order `new Date(a) - new Date(b)` gives them. Other date formats are not modelled.
- `StoreModel.UpdateOutcome` compares stored keys where the route compares `item.id`; `Valid` makes each key the item's id.
- `NutritionSummary.NutritionCard` requires a positive target. Every card is built from the fixed positive targets, so the `Infinity`/`NaN` of a zero target never arises.
- `UserProfile.SpreadFields`: a spread of a string adds its index keys (`{..."ab"}` is `{0: "a", 1: "b"}`); the model adds nothing for a value that is not an object.
- `WeightTrend.GetTrend`: a first weight of 0 gives an absent percentage, where the page computes `Infinity` or `NaN` and prints it.
- `toFixed` and `toLocaleDateString` formatting of the shown numbers and dates.
- `WeightTrendChart`'s `.sort` reorders the array it was given in place. The model sorts a copy and leaves that aliasing out. The same holds for the display-only sort of the history list (UserProfile.jsx:790-791).
- The camera and the ZXing decoder (BarcodeScanner.jsx), and with them the camera error notice. The OpenFoodFacts request itself is replaced by the document it returned.
- Clearing the "Product found" notice after three seconds (`setTimeout`) is not modelled.
- Refreshing the item list after a create, and the parent's callbacks (`onFoodAdded`, `onClose`), are not modelled. Only the decision to make those calls is modelled.
- `AddFoodToDatabaseModal.NoticeText` has no text for `String()` of a name that is not a string.
- The mode buttons, the form's `handleInputChange`, and the other pure UI: App.jsx, DateNavigation.jsx, the toast and confirm components, and all JSX rendering.
- The branch at AddFoodModal.jsx:354 tests for a message the component never sets, so it cannot be reached.
- CSV export. The client asks for `/api/meals/export` and `/api/user/weight/export`, and the server has no such routes.
- Which calls go through the retry wrapper: `CopyMealModal.jsx`, `MealCard.jsx`, `FoodDatabase.jsx` and `UserProfile.jsx` use it for every request, and `AddFoodToDatabaseModal.jsx` for its create (line 70). Plain `fetch` is used by `AddFoodModal.jsx` (lines 30, 73, 107, 126), `AddNewFoodModal.jsx` (line 41), `NutritionSummary.jsx` (lines 19, 35), `WeightTrendChart.jsx` (line 17) and the other two requests of `AddFoodToDatabaseModal.jsx` (lines 107, 142). The dialogs are modelled only through the final status each call got.
