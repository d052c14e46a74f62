/**
 * The new-food form that both the database's "add new food" dialog and the "add food to
 * database" dialog submit: its six fields, the required-field check, the request body it
 * sends, and what a submission leaves behind.
 */
module FoodForm {
  import opened JsValues
  import opened StoreModel
  import Api

  /** The form's fields. Typed fields hold strings; a pre-filled product may hold numbers. */
  datatype Form = Form(name: Js, calories: Js, proteins: Js, carbohydrates: Js, fat: Js, barcode: Js)

  /** Every field empty, as the form starts and as it is reset. */
  const EmptyForm := Form(Str(""), Str(""), Str(""), Str(""), Str(""), Str(""))

  const RequiredMessage := "Name and calories are required"
  const AddFailed := "Failed to add food item"

  /** `!formData.name || !formData.calories`: the submission is refused before any request. */
  predicate MissingRequired(form: Form)
  {
    !Truthy(form.name) || !Truthy(form.calories)
  }

  /**
   * The request body as the server reads it after `JSON.stringify`: calories parsed (a NaN
   * arrives as `null`), the other macros parsed or 0, no unit, and an empty barcode as `null`.
   */
  function RequestBody(form: Form): (b: FoodItemBody)
    ensures b.name == form.name && b.unit == Undefined
    ensures b.calories == Serialized(ParseFloat(form.calories))
    ensures b.proteins == Num(ParseFloatOr(form.proteins, 0.0))
    ensures b.carbohydrates == Num(ParseFloatOr(form.carbohydrates, 0.0))
    ensures b.fat == Num(ParseFloatOr(form.fat, 0.0))
    ensures Truthy(form.barcode) ==> b.barcode == form.barcode
    ensures !Truthy(form.barcode) ==> b.barcode == Null
  {
    FoodItemBody(
      form.name,
      Serialized(ParseFloat(form.calories)),
      Num(ParseFloatOr(form.fat, 0.0)),
      Num(ParseFloatOr(form.carbohydrates, 0.0)),
      Num(ParseFloatOr(form.proteins, 0.0)),
      Undefined,
      Or(form.barcode, Null))
  }

  /** Parsing a number that was already parsed changes nothing. */
  lemma ParseTwice(v: Js)
    ensures Serialized(ParseFloat(Serialized(ParseFloat(v)))) == Serialized(ParseFloat(v))
    ensures ParseFloatOr(Num(ParseFloatOr(v, 0.0)), 0.0) == ParseFloatOr(v, 0.0)
  {
  }

  /**
   * A form that passes its own check always passes the server's required-field check, so
   * the server refuses it only for a barcode that is already taken.
   */
  lemma CheckedFormPassesServerCheck(order: seq<string>, items: map<string, FoodItem>, form: Form, id: string, now: string)
    requires forall k :: k in order ==> k in items
    requires !MissingRequired(form)
    ensures var r := CreateOutcome(order, items, RequestBody(form), id, now);
      r.Created? || r == BadRequest(BarcodeTaken)
    ensures CreateOutcome(order, items, RequestBody(form), id, now) == BadRequest(BarcodeTaken)
        <==> Truthy(form.barcode) && FindByBarcode(order, items, form.barcode, None).Some?
  {
  }

  /**
   * The stored item holds the numbers the form sent: the server's own parsing of the body
   * reproduces them, and the unit defaults to grams.
   */
  lemma StoredAsSent(form: Form, id: string, now: string)
    ensures var item := NewFoodItem(RequestBody(form), id, now);
      && item.name == form.name
      && item.calories == Serialized(ParseFloat(form.calories))
      && item.proteins == Num(ParseFloatOr(form.proteins, 0.0))
      && item.carbohydrates == Num(ParseFloatOr(form.carbohydrates, 0.0))
      && item.fat == Num(ParseFloatOr(form.fat, 0.0))
      && item.unit == Str("grams")
      && item.barcode == Or(form.barcode, Null)
  {
    ParseTwice(form.calories);
    ParseTwice(form.proteins);
    ParseTwice(form.carbohydrates);
    ParseTwice(form.fat);
  }

  /** What a submission leaves: the form, an alert, the request sent, and whether the food was added. */
  datatype Submission = Submission(form: Form, alert: Option<string>, request: Option<FoodItemBody>, added: bool)

  /**
   * `handleSubmit` / `handleCreateFood`: a refused form sends nothing; otherwise the body is
   * sent, and `response` is the status it got (`None` when the request threw). The form is
   * reset after a 2xx answer and kept, with an alert, otherwise.
   */
  function Submit(form: Form, response: Option<int>): (s: Submission)
    ensures MissingRequired(form) ==> s == Submission(form, Some(RequiredMessage), None, false)
    ensures !MissingRequired(form) ==> s.request == Some(RequestBody(form))
    ensures !MissingRequired(form) && response.Some? && Api.IsOk(response.value) ==>
      s.form == EmptyForm && s.alert == None && s.added
    ensures !MissingRequired(form) && !(response.Some? && Api.IsOk(response.value)) ==>
      s.form == form && s.alert == Some(AddFailed) && !s.added
  {
    if MissingRequired(form) then Submission(form, Some(RequiredMessage), None, false)
    else if response.Some? && Api.IsOk(response.value) then Submission(EmptyForm, None, Some(RequestBody(form)), true)
    else Submission(form, Some(AddFailed), Some(RequestBody(form)), false)
  }

  /** The empty form is refused, and refusing it sends nothing. */
  lemma EmptyFormIsRefused(response: Option<int>)
    ensures Submit(EmptyForm, response).request == None
  {
  }

  /** `handleClose`: a close request is ignored while the form is being submitted. */
  function HandleClose(isSubmitting: bool): (closes: bool)
    ensures closes <==> !isSubmitting
  {
    !isSubmitting
  }
}
