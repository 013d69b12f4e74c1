/**
 * The garnish form: its initial values, its `validate` callback, and the
 * `onSubmit` that builds the request body, chooses between creating and
 * updating, and reacts to the response.
 */
module GarnishForm {
  import opened JsValues
  import opened Catalog
  import JsString
  import Http

  const GarnishesApi: string := "/api/garnishes"
  const GarnishesListing: string := "/manage/garnishes"
  const Required: string := "Required"

  /** The form values. */
  datatype Values = Values(name: string, price: NumberInput, description: string, image: Field<string>)

  /** The JSON body of the create or update request. */
  datatype Payload = Payload(id: Option<string>, name: string, price: NumberInput, description: Field<string>, image: Field<string>)

  datatype Request = Request(verb: Http.Method, url: string, body: Payload)

  /** The initial values: the stored garnish's fields, or an empty name, price 0, empty description and no image. */
  function InitialValues(g: Option<Garnish>): (v: Values)
    ensures v.price.Num?
    ensures g.None? ==> v.name == "" && v.price == Num(0.0) && v.description == "" && v.image == Undefined
    ensures g.Some? ==> v.name == g.value.name && v.price == Num(g.value.price)
    ensures g.Some? ==> (v.image.Present? <==> g.value.image.Some?) && !v.image.Null?
    ensures g.Some? ==> v.description == Coalesce(g.value.description, "")
    ensures g.Some? && g.value.image.Some? ==> v.image == Present(g.value.image.value)
  {
    match g
    case None => Values("", Num(0.0), "", Undefined)
    case Some(x) =>
      Values(x.name, Num(x.price), Coalesce(x.description, ""), if x.image.Some? then Present(x.image.value) else Undefined)
  }

  /**
   * `validate`: `name` is flagged when it is empty (there is no trim, so a
   * blank name passes) and `price` when its string form is `''` or it is
   * NaN, which for a number input means only when it is blank; a price of 0
   * passes. No other key is ever set.
   */
  function Validate(v: Values): (errors: map<string, string>)
    ensures errors.Keys <= {"name", "price"}
    ensures "name" in errors <==> v.name == ""
    ensures "price" in errors <==> v.price == Blank
    ensures forall k :: k in errors ==> errors[k] == Required
  {
    var nameErrors := if v.name == "" then map["name" := Required] else map[];
    // `price.toString() == ''` holds only for ''; `isNaN` holds neither for '' nor for a parsed number.
    var priceErrors := if v.price.Blank? then map["price" := Required] else map[];
    nameErrors + priceErrors
  }

  /** `description?.trim() == '' ? null : description?.trim()`: a blank description is sent as null, any other trimmed. */
  function DescriptionField(description: string): (f: Field<string>)
    ensures f.Null? <==> JsString.AllWhitespace(description)
    ensures !f.Undefined?
    ensures f.Present? ==> f.value != "" && JsString.Trim(f.value) == f.value
    ensures f.Present? ==> f.value == JsString.Trim(description)
  {
    JsString.TrimEmptyIffBlank(description);
    JsString.TrimIdempotent(description);
    if JsString.Trim(description) == "" then Null else Present(JsString.Trim(description))
  }

  /** The request body: the stored garnish's id when editing, the description trimmed, an empty image sent as null. */
  function BuildPayload(existing: Option<Garnish>, v: Values): (p: Payload)
    ensures p.id.Some? <==> existing.Some?
    ensures p.id.Some? ==> p.id.value == existing.value.id
    ensures p.name == v.name && p.price == v.price
    ensures p.description.Null? <==> JsString.AllWhitespace(v.description)
    ensures p.description.Present? ==> p.description.value == JsString.Trim(v.description)
    ensures p.image.Present? <==> v.image.Present? && v.image.value != ""
    ensures p.image.Present? ==> p.image == v.image
  {
    Payload(
      if existing == None then None else Some(existing.value.id),
      v.name,
      v.price,
      DescriptionField(v.description),
      EmptyToNull(v.image))
  }

  /**
   * Pressing submit: nothing is sent while an error is set; otherwise the
   * body goes to the garnishes endpoint, by POST for a new garnish and by
   * PUT for a stored one.
   */
  function Submit(existing: Option<Garnish>, v: Values): (r: Option<Request>)
    ensures r.Some? <==> v.name != "" && v.price.Num?
    ensures r.Some? ==> (r.value.verb == Http.Post <==> existing.None?)
    ensures r.Some? ==> (r.value.body.id == None <==> existing.None?)
    ensures r.Some? ==> r.value.url == GarnishesApi && r.value.body == BuildPayload(existing, v)
  {
    if |Validate(v)| != 0 then None
    else
      Some(Request(if existing == None then Http.Post else Http.Put, GarnishesApi, BuildPayload(existing, v)))
  }

  /** After the response: go to the garnish list when the status starts with '2', otherwise log the status. */
  function Finish(status: nat, statusText: string): (o: Http.Outcome)
    ensures o.Navigate? <==> Http.LeadingDigit(status) == 2
    ensures 100 <= status <= 999 ==> (o.Navigate? <==> 200 <= status <= 299)
    ensures o.Navigate? ==> o.path == GarnishesListing
  {
    Http.Settle(status, statusText, GarnishesListing)
  }

  /** A fresh form reports only the missing name: its price 0 is accepted. */
  lemma NewFormMissesOnlyName()
    ensures Validate(InitialValues(None)) == map["name" := Required]
  {
  }

  /** The form of a stored garnish with a name passes validation and is sent by PUT under that garnish's id. */
  lemma StoredGarnishIsUpdated(g: Garnish)
    requires g.name != ""
    ensures Submit(Some(g), InitialValues(Some(g))).Some?
    ensures Submit(Some(g), InitialValues(Some(g))).value.verb == Http.Put
    ensures Submit(Some(g), InitialValues(Some(g))).value.body.id == Some(g.id)
  {
  }

  /** Unlike the recipe form, a name of blanks only is accepted. */
  lemma BlankNameAccepted()
    ensures "name" !in Validate(Values(" ", Num(0.0), "", Undefined))
  {
  }

  /** Building the body again from the values it carries leaves the description as it is. */
  lemma DescriptionStable(v: Values)
    ensures var p := BuildPayload(None, v);
      p.description.Present? ==> DescriptionField(p.description.value) == p.description
  {
    var p := BuildPayload(None, v);
    if p.description.Present? {
      JsString.TrimIdempotent(v.description);
      JsString.TrimEmptyIffBlank(p.description.value);
    }
  }
}
