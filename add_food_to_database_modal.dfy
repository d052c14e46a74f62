/**
 * The "add food to database" dialog: its open reset, the barcode scan that warns about a
 * known barcode or pre-fills the form from OpenFoodFacts, and the submission of the form,
 * as transitions on the dialog's state.
 */
module AddFoodToDatabaseModal {
  import opened JsValues
  import opened Text
  import opened StoreModel
  import opened FoodForm
  import opened OpenFoodFacts

  /** The dialog's screens; the `"manual"` mode its comment names is never set. */
  datatype Mode = Options | Create

  /** What the scanner area shows; `AlreadyExists` carries the known item's name. */
  datatype Notice =
    | AlreadyExists(name: Js)
    | SearchingApi
    | ProductFound
    | NoData(barcode: string)
    | SearchError

  const SearchingText := "\U{1F50D} Searching OpenFoodFacts database..."
  const ProductFoundText := "\U{2705} Product found! Review and save to your database."
  const SearchErrorText := "Error searching for barcode. Please try again."

  /**
   * The notice's text. A name that is not a string is written as `String(name)` would write
   * it, which is not modelled: there is no text for that notice.
   */
  function NoticeText(n: Notice): (t: Option<string>)
    ensures t.None? <==> n.AlreadyExists? && !n.name.Str?
  {
    match n
    case AlreadyExists(name) =>
      if name.Str? then Some("\U{26A0}\U{FE0F} Food \"" + name.s + "\" with this barcode already exists in your database!")
      else None
    case SearchingApi => Some(SearchingText)
    case ProductFound => Some(ProductFoundText)
    case NoData(barcode) => Some("No nutrition data found for barcode " + barcode + ". Please enter the details manually.")
    case SearchError => Some(SearchErrorText)
  }

  datatype State = State(
    mode: Mode,
    isScannerOpen: bool,
    scannerError: Option<Notice>,
    showManualBarcodeInput: bool,
    manualBarcode: string,
    isSearchingAPI: bool,
    formData: Form)

  /** The effect on `isOpen`: the options screen, no notice, not searching, and an empty form. */
  function Open(s: State): (r: State)
    ensures r.mode == Options && r.scannerError == None && !r.isSearchingAPI
    ensures r.manualBarcode == "" && r.formData == EmptyForm
    ensures r.isScannerOpen == s.isScannerOpen && r.showManualBarcodeInput == s.showManualBarcodeInput
  {
    s.(mode := Options, scannerError := None, isSearchingAPI := false, manualBarcode := "", formData := EmptyForm)
  }

  /**
   * `handleBarcodeScanned`: a local hit only warns; after a 404 the form is filled from the
   * product found remotely, or given just the barcode when there is none, and the create
   * screen opens; any other status, or an exception, shows the search error. The searching
   * flag is off at the end in every case.
   */
  function Scanned(s: State, barcode: string, local: LocalLookup, data: Option<Js>): (r: State)
    ensures !r.isScannerOpen && !r.isSearchingAPI
    ensures r.showManualBarcodeInput == s.showManualBarcodeInput && r.manualBarcode == s.manualBarcode
    ensures local.Hit? ==>
      r.scannerError == Some(AlreadyExists(local.item.name)) && r.mode == s.mode && r.formData == s.formData
    ensures local.Missing? && Normalize(data, barcode).Some? ==>
      r.formData == Normalize(data, barcode).value && r.mode == Create && r.scannerError == Some(ProductFound)
    ensures local.Missing? && Normalize(data, barcode).None? ==>
      r.formData == s.formData.(barcode := Str(barcode)) && r.mode == Create && r.scannerError == Some(NoData(barcode))
    ensures local.OtherStatus? || local.Failed? ==>
      r.scannerError == Some(SearchError) && r.mode == s.mode && r.formData == s.formData
  {
    var s1 := s.(isScannerOpen := false, scannerError := None, isSearchingAPI := false);
    var s2 :=
      match local
      case Hit(foodItem) => s1.(scannerError := Some(AlreadyExists(foodItem.name)))
      case Missing =>
        var searching := s1.(isSearchingAPI := true, scannerError := Some(SearchingApi));
        (match Normalize(data, barcode)
         case Some(openFoodFactsData) =>
           searching.(formData := openFoodFactsData, mode := Create, scannerError := Some(ProductFound))
         case None =>
           searching.(formData := searching.formData.(barcode := Str(barcode)), mode := Create,
                      scannerError := Some(NoData(barcode))))
      case OtherStatus(_) => s1.(scannerError := Some(SearchError))
      case Failed => s1.(scannerError := Some(SearchError));
    // the `finally` block
    s2.(isSearchingAPI := false)
  }

  /**
   * A product pre-filled from OpenFoodFacts with numeric nutrients is sent back to the store
   * with those same numbers when the form is saved unedited.
   */
  lemma PrefilledNumbersAreKept(s: State, barcode: string, data: Option<Js>, cal: real, p: real, c: real, f: real)
    requires barcode != "" && Normalize(data, barcode).Some?
    requires var v := Normalize(data, barcode).value;
      v.calories == Num(cal) && v.proteins == Num(p) && v.carbohydrates == Num(c) && v.fat == Num(f)
    ensures var b := RequestBody(Scanned(s, barcode, Missing, data).formData);
      && b.calories == Num(cal) && b.proteins == Num(p) && b.carbohydrates == Num(c) && b.fat == Num(f)
      && b.barcode == Str(barcode)
  {
    assert ParseFloat(Num(cal)) == Num(cal);
    assert ParseFloat(Num(p)) == Num(p);
    assert ParseFloat(Num(c)) == Num(c);
    assert ParseFloat(Num(f)) == Num(f);
  }

  /** After a scan whose local answer was a 404 the form always carries the scanned barcode. */
  lemma MissHasScannedBarcode(s: State, barcode: string, data: Option<Js>)
    ensures Scanned(s, barcode, Missing, data).formData.barcode == Str(barcode)
  {
  }

  /** What a create leaves: the dialog state, an alert, the body sent, and whether the dialog closed. */
  datatype CreateResult = CreateResult(state: State, alert: Option<string>, request: Option<FoodItemBody>, closed: bool)

  /**
   * `handleCreateFood`: the shared submission; on success the dialog also calls `onClose`.
   * `response` is the status of the request (`None` when it threw).
   */
  function HandleCreateFood(s: State, response: Option<int>): (r: CreateResult)
    ensures var sub := Submit(s.formData, response);
      && r.state == s.(formData := sub.form) && r.alert == sub.alert && r.request == sub.request
      && r.closed == sub.added
    ensures r.closed ==> r.state.formData == EmptyForm
    ensures MissingRequired(s.formData) ==> r.request == None && r.state == s && !r.closed
  {
    var sub := Submit(s.formData, response);
    CreateResult(s.(formData := sub.form), sub.alert, sub.request, sub.added)
  }

  const EnterBarcode := "Please enter a barcode"

  /**
   * `handleManualBarcodeSubmit`: a blank entry alerts and changes nothing; otherwise the input
   * closes, the trimmed barcode is scanned, and the entry is cleared.
   */
  function ManualSubmit(s: State, local: LocalLookup, data: Option<Js>): (r: (State, Option<string>))
    ensures IsBlank(s.manualBarcode) ==> r == (s, Some(EnterBarcode))
    ensures !IsBlank(s.manualBarcode) ==> r.1 == None
    ensures !IsBlank(s.manualBarcode) ==>
      r.0 == Scanned(s.(showManualBarcodeInput := false), Trim(s.manualBarcode), local, data).(manualBarcode := "")
  {
    if Trim(s.manualBarcode) == "" then (s, Some(EnterBarcode))
    else (Scanned(s.(showManualBarcodeInput := false), Trim(s.manualBarcode), local, data).(manualBarcode := ""), None)
  }
}
