/**
 * The barcode look-up both food dialogs run: the local store's answer, and the conversion
 * of an OpenFoodFacts product document into the new-food form's six fields.
 */
module OpenFoodFacts {
  import opened JsValues
  import opened StoreModel
  import opened FoodForm

  /**
   * What `GET /api/food-items/barcode/:barcode` gave the client: the item (a 2xx answer),
   * a 404, another status, or an exception.
   */
  datatype LocalLookup = Hit(item: FoodItem) | Missing | OtherStatus(status: int) | Failed

  /** The client's reading of the server's answer to the barcode route. */
  function LocalLookupOf(r: Response<FoodItem>): (l: LocalLookup)
    ensures r.Ok? || r.Created? <==> l.Hit?
    ensures l.Hit? ==> l.item == r.body
    ensures r.NotFound? <==> l.Missing?
  {
    match r
    case Ok(item) => Hit(item)
    case Created(item) => Hit(item)
    case NotFound(_) => Missing
    case BadRequest(_) => OtherStatus(400)
    case ServerError(_) => OtherStatus(500)
  }

  /** `a || b || 0` over the two spellings of a nutrient. */
  function Nutrient(nutriments: Js, per100g: string, plain: string): (r: Js)
    ensures Truthy(Get(nutriments, per100g)) ==> r == Get(nutriments, per100g)
    ensures !Truthy(Get(nutriments, per100g)) && Truthy(Get(nutriments, plain)) ==> r == Get(nutriments, plain)
    ensures !Truthy(Get(nutriments, per100g)) && !Truthy(Get(nutriments, plain)) ==> r == Num(0.0)
  {
    Or(Or(Get(nutriments, per100g), Get(nutriments, plain)), Num(0.0))
  }

  /**
   * `fetchFromOpenFoodFacts`'s conversion of the document `data` (`None` when the request or
   * its parsing threw): nothing unless `status === 1` and a product is present; otherwise the
   * product's name or `Product <barcode>`, the four nutrients per 100 g, and the barcode.
   */
  function Normalize(data: Option<Js>, barcode: string): (r: Option<Form>)
    ensures r.Some? <==> data.Some? && StrictEq(Get(data.value, "status"), Num(1.0)) && Truthy(Get(data.value, "product"))
    ensures r.Some? ==> var product := Get(data.value, "product");
      && r.value.name == (if Truthy(Get(product, "product_name")) then Get(product, "product_name")
                          else Str("Product " + barcode))
      && r.value.barcode == Str(barcode)
    ensures r.Some? ==> var nutriments := Get(Get(data.value, "product"), "nutriments");
      && r.value.calories == Nutrient(nutriments, "energy-kcal_100g", "energy-kcal")
      && r.value.proteins == Nutrient(nutriments, "proteins_100g", "proteins")
      && r.value.carbohydrates == Nutrient(nutriments, "carbohydrates_100g", "carbohydrates")
      && r.value.fat == Nutrient(nutriments, "fat_100g", "fat")
  {
    if data.None? then None
    else if StrictEq(Get(data.value, "status"), Num(1.0)) && Truthy(Get(data.value, "product")) then
      var product := Get(data.value, "product");
      // `product.nutriments || {}`: reading a field of `{}` or of a missing value both give undefined
      var nutriments := Get(product, "nutriments");
      Some(Form(
        Or(Get(product, "product_name"), Str("Product " + barcode)),
        Nutrient(nutriments, "energy-kcal_100g", "energy-kcal"),
        Nutrient(nutriments, "proteins_100g", "proteins"),
        Nutrient(nutriments, "carbohydrates_100g", "carbohydrates"),
        Nutrient(nutriments, "fat_100g", "fat"),
        Str(barcode)))
    else None
  }

  /** Every converted product has a name and calories, so the form's own check passes. */
  lemma NormalizedPassesFormCheck(data: Option<Js>, barcode: string)
    requires Normalize(data, barcode).Some?
    ensures Truthy(Normalize(data, barcode).value.name)
    ensures Normalize(data, barcode).value.calories != Undefined
  {
    assert |"Product " + barcode| > 0;
  }

  /** The body `JSON.stringify(openFoodFactsData)` posts: the six fields, as they are. */
  function ProductBody(p: Form): (b: FoodItemBody)
    ensures b.name == Serialized(p.name) && b.calories == Serialized(p.calories)
    ensures b.proteins == Serialized(p.proteins) && b.carbohydrates == Serialized(p.carbohydrates)
    ensures b.fat == Serialized(p.fat) && b.barcode == Serialized(p.barcode) && b.unit == Undefined
  {
    FoodItemBody(Serialized(p.name), Serialized(p.calories), Serialized(p.fat), Serialized(p.carbohydrates),
                 Serialized(p.proteins), Undefined, Serialized(p.barcode))
  }

  /**
   * A product found remotely for a barcode the local store does not hold is accepted by the
   * store, and the created item carries that barcode.
   */
  lemma MissedProductIsCreated(order: seq<string>, items: map<string, FoodItem>, data: Option<Js>, barcode: string,
                               id: string, now: string)
    requires forall k :: k in order ==> k in items
    requires barcode != ""
    requires FindByBarcode(order, items, Str(barcode), None).None?
    requires Normalize(data, barcode).Some?
    ensures var r := CreateOutcome(order, items, ProductBody(Normalize(data, barcode).value), id, now);
      r.Created? && r.body.barcode == Str(barcode) && r.body.id == id
  {
    NormalizedPassesFormCheck(data, barcode);
  }
}
