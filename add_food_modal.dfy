/**
 * The "add food to meal" dialog: its open reset, the name filter of its picker, the add
 * button's guard, and the barcode scan that selects a local item or creates one from
 * OpenFoodFacts, as transitions on the dialog's state.
 */
module AddFoodModal {
  import opened JsValues
  import opened Text
  import opened StoreModel
  import opened FoodForm
  import opened OpenFoodFacts

  /** What the scanner area shows. */
  datatype Notice =
    | Searching
    | FailedToSave
    | NoData(barcode: string)
    | SearchError

  const SearchingText := "Searching OpenFoodFacts database..."
  const FailedToSaveText := "Food found but failed to save. Please try adding manually."
  const SearchErrorText := "Error searching for barcode. Please try again."
  const NoDataPrefix := "No nutrition data found for barcode "
  const NoDataSuffix := ". Would you like to add it manually?"

  /** The text of each notice; the no-data notice names the barcode it was raised for. */
  function NoticeText(n: Notice): (t: string)
    ensures n.NoData? ==> OccursAt(t, n.barcode, |NoDataPrefix|) && t[..|NoDataPrefix|] == NoDataPrefix
    ensures n.NoData? ==> |t| == |NoDataPrefix| + |n.barcode| + |NoDataSuffix|
  {
    match n
    case Searching => SearchingText
    case FailedToSave => FailedToSaveText
    case NoData(barcode) => NoDataPrefix + barcode + NoDataSuffix
    case SearchError => SearchErrorText
  }

  /**
   * The dialog's state: the search text (set to an item's name, which need not be a string),
   * the selected item, the quantity (`Number(input)`, so possibly NaN), the scanner's notice,
   * whether the scanner and the manual barcode input are open, and the manual barcode.
   */
  datatype State = State(
    searchQuery: Js,
    selectedFood: Option<FoodItem>,
    quantity: Js,
    scannerError: Option<Notice>,
    isScannerOpen: bool,
    showManualBarcodeInput: bool,
    manualBarcode: string)

  /** The effect on `isOpen`: the query emptied, nothing selected, 100 g. */
  function Open(s: State): (r: State)
    ensures r.searchQuery == Str("") && r.selectedFood == None && r.quantity == Num(100.0)
    ensures r.scannerError == s.scannerError && r.isScannerOpen == s.isScannerOpen
    ensures r.showManualBarcodeInput == s.showManualBarcodeInput && r.manualBarcode == s.manualBarcode
  {
    s.(searchQuery := Str(""), selectedFood := None, quantity := Num(100.0))
  }

  /**
   * The picker's filter: every item for a blank query, otherwise the items whose name contains
   * the query ignoring case (the same test as the server's search route); `None` when a name
   * is not a string and `toLowerCase` throws.
   */
  function FilteredItems(foodItems: seq<FoodItem>, searchQuery: string): (r: Option<seq<FoodItem>>)
    ensures IsBlank(searchQuery) ==> r == Some(foodItems)
    ensures !IsBlank(searchQuery) ==> (r.None? <==> exists i :: 0 <= i < |foodItems| && !foodItems[i].name.Str?)
    ensures !IsBlank(searchQuery) && r.Some? ==>
      forall x :: x in r.value <==> x in foodItems && x.name.Str? && NameMatches(x.name.s, searchQuery)
    ensures r.Some? ==> Subsequence(r.value, foodItems)
  {
    if Trim(searchQuery) == "" then SubsequenceReflexive(foodItems); Some(foodItems)
    else
      match SearchResult(foodItems, searchQuery)
      case Ok(items) => Some(items)
      case _ => None
  }

  /** `handleAddFood`: `onAddFood(id, quantity)` only with an item selected and a positive quantity. */
  function HandleAddFood(s: State): (call: Option<(string, real)>)
    ensures call.Some? <==> s.selectedFood.Some? && s.quantity.Num? && s.quantity.n > 0.0
    ensures call.Some? ==> call.value == (s.selectedFood.value.id, s.quantity.n)
  {
    if s.selectedFood.Some? && s.quantity.Num? && s.quantity.n > 0.0 then Some((s.selectedFood.value.id, s.quantity.n))
    else None
  }

  /**
   * `handleBarcodeScanned`: the scanner closes and its notice clears; a local hit is selected;
   * after a 404 the product is looked up remotely (`data`) and, when found, created
   * (`create`, `None` when the request threw) and the created item selected; any other
   * status, or an exception, shows the search error.
   */
  function Scanned(s: State, barcode: string, local: LocalLookup, data: Option<Js>,
                   create: Option<Response<FoodItem>>): (r: State)
    ensures !r.isScannerOpen && r.quantity == s.quantity
    ensures r.showManualBarcodeInput == s.showManualBarcodeInput && r.manualBarcode == s.manualBarcode
    ensures local.Hit? ==> r.selectedFood == Some(local.item) && r.searchQuery == local.item.name && r.scannerError == None
    ensures local.Missing? && Normalize(data, barcode).None? ==>
      r.selectedFood == s.selectedFood && r.scannerError == Some(NoData(barcode))
    ensures local.Missing? && Normalize(data, barcode).Some? && create.Some? && (create.value.Created? || create.value.Ok?) ==>
      r.selectedFood == Some(create.value.body) && r.searchQuery == create.value.body.name && r.scannerError == None
    ensures local.Missing? && Normalize(data, barcode).Some? && create.Some? && !(create.value.Created? || create.value.Ok?) ==>
      r.selectedFood == s.selectedFood && r.scannerError == Some(FailedToSave)
    ensures local.Missing? && Normalize(data, barcode).Some? && create.None? ==>
      r.selectedFood == s.selectedFood && r.scannerError == Some(SearchError)
    ensures (local.OtherStatus? || local.Failed?) ==> r.selectedFood == s.selectedFood && r.scannerError == Some(SearchError)
    ensures r.searchQuery != s.searchQuery ==>
      local.Hit? || (local.Missing? && Normalize(data, barcode).Some? && create.Some? && (create.value.Created? || create.value.Ok?))
  {
    var s1 := s.(isScannerOpen := false, scannerError := None);
    match local
    case Hit(foodItem) => s1.(selectedFood := Some(foodItem), searchQuery := foodItem.name)
    case Missing =>
      var s2 := s1.(scannerError := Some(Searching));
      (match Normalize(data, barcode)
       case None => s2.(scannerError := Some(NoData(barcode)))
       case Some(_) =>
         (match create
          case None => s2.(scannerError := Some(SearchError))
          case Some(Created(newFoodItem)) =>
            s2.(selectedFood := Some(newFoodItem), searchQuery := newFoodItem.name, scannerError := None)
          case Some(Ok(newFoodItem)) =>
            s2.(selectedFood := Some(newFoodItem), searchQuery := newFoodItem.name, scannerError := None)
          case Some(_) => s2.(scannerError := Some(FailedToSave))))
    case OtherStatus(_) => s1.(scannerError := Some(SearchError))
    case Failed => s1.(scannerError := Some(SearchError))
  }

  /** A local hit never reaches OpenFoodFacts: the result does not depend on the remote answers. */
  lemma LocalHitMakesNoRemoteCall(s: State, barcode: string, item: FoodItem, data: Option<Js>, data': Option<Js>,
                                  create: Option<Response<FoodItem>>, create': Option<Response<FoodItem>>)
    ensures Scanned(s, barcode, Hit(item), data, create) == Scanned(s, barcode, Hit(item), data', create')
  {
  }

  /**
   * Scanning a barcode the store does not hold, with OpenFoodFacts knowing the product, ends
   * with the newly created item selected, and that item carries the scanned barcode.
   */
  lemma ScanCreatesAndSelects(s: State, order: seq<string>, items: map<string, FoodItem>, barcode: string,
                              data: Option<Js>, id: string, now: string)
    requires forall k :: k in order ==> k in items
    requires barcode != ""
    requires FindByBarcode(order, items, Str(barcode), None).None?
    requires Normalize(data, barcode).Some?
    ensures var created := CreateOutcome(order, items, ProductBody(Normalize(data, barcode).value), id, now);
      var r := Scanned(s, barcode, Missing, data, Some(created));
      && r.selectedFood.Some? && r.selectedFood.value.barcode == Str(barcode) && r.scannerError == None
  {
    MissedProductIsCreated(order, items, data, barcode, id, now);
  }

  const EnterBarcode := "Please enter a barcode"

  /**
   * `handleManualBarcodeSubmit`: a blank entry alerts and changes nothing; otherwise the input
   * closes, the trimmed barcode is scanned, and the entry is cleared.
   */
  function ManualSubmit(s: State, local: LocalLookup, data: Option<Js>, create: Option<Response<FoodItem>>)
    : (r: (State, Option<string>))
    ensures IsBlank(s.manualBarcode) ==> r == (s, Some(EnterBarcode))
    ensures !IsBlank(s.manualBarcode) ==> r.1 == None
    ensures !IsBlank(s.manualBarcode) ==>
      r.0 == Scanned(s.(showManualBarcodeInput := false), Trim(s.manualBarcode), local, data, create).(manualBarcode := "")
  {
    if Trim(s.manualBarcode) == "" then (s, Some(EnterBarcode))
    else
      var s1 := s.(showManualBarcodeInput := false);
      (Scanned(s1, Trim(s.manualBarcode), local, data, create).(manualBarcode := ""), None)
  }

  /** The barcode scanned from the manual input has no white space at either end. */
  lemma ManualBarcodeIsTrimmed(manualBarcode: string)
    requires !IsBlank(manualBarcode)
    ensures var code := Trim(manualBarcode);
      code != [] && !IsSpace(code[0]) && !IsSpace(code[|code| - 1])
  {
  }
}
