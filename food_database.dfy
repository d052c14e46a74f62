/**
 * The food database page: the search filter over the fetched items, the barcode count of
 * the header, and the delete button's confirmation.
 */
module FoodDatabase {
  import opened JsValues
  import opened Text
  import opened StoreModel
  import Api

  /**
   * The filter's test on one item for a non-blank query: the name matches ignoring case, or a
   * truthy barcode contains the query as typed. `||` skips the barcode when the name matches.
   */
  predicate Shown(item: FoodItem, query: string)
    requires item.name.Str?
  {
    NameMatches(item.name.s, query) || (Truthy(item.barcode) && item.barcode.Str? && Contains(item.barcode.s, query))
  }

  /**
   * The test throws: `toLowerCase` on a name that is not a string, or `includes` on a truthy
   * barcode that is not a string, reached only when the name does not match.
   */
  predicate Throws(item: FoodItem, query: string)
  {
    !item.name.Str? || (!NameMatches(item.name.s, query) && Truthy(item.barcode) && !item.barcode.Str?)
  }

  /** `foodItems.filter(...)` for a non-blank query; `None` when the test throws on some item. */
  function FilterNonBlank(items: seq<FoodItem>, query: string): (r: Option<seq<FoodItem>>)
    ensures r.None? <==> exists i :: 0 <= i < |items| && Throws(items[i], query)
    ensures r.Some? ==> forall x :: x in r.value <==> x in items && x.name.Str? && Shown(x, query)
    ensures r.Some? ==> |r.value| <= |items| && Subsequence(r.value, items)
  {
    if items == [] then Some([])
    else if Throws(items[0], query) then None
    else
      var rest := FilterNonBlank(items[1..], query);
      if rest.None? then None
      else
        var picked := if Shown(items[0], query) then [items[0]] + rest.value else rest.value;
        assert forall x :: x in items <==> x == items[0] || x in items[1..];
        assert picked != [] && picked[0] == items[0] ==> picked[1..] == rest.value;
        Some(picked)
  }

  /** The filtered list: every item for a query that is only white space, the filter otherwise. */
  function FilteredItems(foodItems: seq<FoodItem>, searchQuery: string): (r: Option<seq<FoodItem>>)
    ensures IsBlank(searchQuery) ==> r == Some(foodItems)
    ensures !IsBlank(searchQuery) ==> r == FilterNonBlank(foodItems, searchQuery)
  {
    if Trim(searchQuery) == "" then Some(foodItems) else FilterNonBlank(foodItems, searchQuery)
  }

  /**
   * For items with string names and no barcodes, the page's filter keeps exactly what the
   * server's search route answers, in the same order.
   */
  lemma {:induction false} FilterAgreesWithSearch(items: seq<FoodItem>, query: string)
    requires forall i :: 0 <= i < |items| ==> items[i].name.Str? && !Truthy(items[i].barcode)
    ensures FilterNonBlank(items, query) == Some(SearchResult(items, query).body)
    ensures SearchResult(items, query).Ok?
  {
    if items != [] {
      FilterAgreesWithSearch(items[1..], query);
    }
  }

  /** A barcode typed into the search finds its item even when the name does not match. */
  lemma BarcodeQueryFindsItem(items: seq<FoodItem>, i: nat)
    requires i < |items| && items[i].name.Str? && items[i].barcode.Str?
    requires !IsBlank(items[i].barcode.s)
    requires FilteredItems(items, items[i].barcode.s).Some?
    ensures items[i] in FilteredItems(items, items[i].barcode.s).value
  {
    var code := items[i].barcode.s;
    assert Shown(items[i], code) by {
      assert OccursAt(code, code, 0);
    }
    assert FilteredItems(items, code) == FilterNonBlank(items, code);
    assert items[i] in items;
  }

  /** `foodItems.filter((item) => item.barcode).length`. */
  function WithBarcodes(foodItems: seq<FoodItem>): (n: nat)
    ensures n <= |foodItems|
    ensures n == |foodItems| <==> forall i :: 0 <= i < |foodItems| ==> Truthy(foodItems[i].barcode)
    ensures n == 0 <==> forall i :: 0 <= i < |foodItems| ==> !Truthy(foodItems[i].barcode)
    ensures n == |BarcodeIndices(foodItems)|
  {
    if foodItems == [] then 0
    else
      var last := |foodItems| - 1;
      var front := foodItems[..last];
      var rest := WithBarcodes(front);
      assert forall i :: 0 <= i < |front| ==> front[i] == foodItems[i];
      BarcodeIndicesSnoc(foodItems);
      rest + (if Truthy(foodItems[last].barcode) then 1 else 0)
  }

  /** The positions of the items with a truthy barcode. */
  ghost function BarcodeIndices(foodItems: seq<FoodItem>): set<nat>
  {
    set i: nat | i < |foodItems| && Truthy(foodItems[i].barcode)
  }

  lemma BarcodeIndicesSnoc(foodItems: seq<FoodItem>)
    requires foodItems != []
    ensures var last := |foodItems| - 1;
      |BarcodeIndices(foodItems)| == |BarcodeIndices(foodItems[..last])| + (if Truthy(foodItems[last].barcode) then 1 else 0)
  {
    var last := |foodItems| - 1;
    var before := BarcodeIndices(foodItems[..last]);
    assert BarcodeIndices(foodItems) == before + (if Truthy(foodItems[last].barcode) then {last} else {});
    assert last !in before;
  }

  /** What `handleDeleteFood` does. */
  datatype DeleteOutcome = NoRequest | Refreshed | Alerted(message: string)

  const DeleteFailed := "Failed to delete food item"

  /**
   * `handleDeleteFood`: nothing when the confirmation is declined; otherwise the list is
   * fetched again after a 2xx answer (`Some(status)`), and an alert is shown for any other
   * answer or an exception (`None`).
   */
  function HandleDeleteFood(confirmed: bool, response: Option<int>): (r: DeleteOutcome)
    ensures !confirmed <==> r == NoRequest
    ensures confirmed && response.Some? && Api.IsOk(response.value) ==> r == Refreshed
    ensures confirmed && !(response.Some? && Api.IsOk(response.value)) ==> r == Alerted(DeleteFailed)
  {
    if !confirmed then NoRequest
    else if response.Some? && Api.IsOk(response.value) then Refreshed
    else Alerted(DeleteFailed)
  }
}
