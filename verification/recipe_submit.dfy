/**
 * The `onSubmit` of the recipe form: the request body built from the form
 * values, the choice between creating and updating, and what the form does
 * with the response. Formik calls it only when `validate` returned an
 * empty error object.
 */
module RecipeSubmit {
  import opened JsValues
  import JsString
  import Http
  import opened Recipe
  import RecipeValidation

  /** Where the recipe is sent, and where the form goes after a success. */
  const CocktailsApi: string := "/api/cocktails"
  const CocktailsListing: string := "/manage/cocktails"

  /** The JSON body of the create or update request. */
  datatype Payload = Payload(
    id: Option<string>,
    name: string,
    description: Field<string>,
    price: NumberInput,
    glassId: Option<string>,
    garnishId: Option<string>,
    image: Field<string>,
    tags: seq<string>,
    glassWithIce: string,
    steps: seq<Step>)

  datatype Request = Request(verb: Http.Method, url: string, body: Payload)

  /** Every step is numbered by its index and every line by its index within its step. */
  predicate FullyNumbered(steps: seq<Step>) {
    StepsNumbered(steps) && forall i :: 0 <= i < |steps| ==> LinesNumbered(steps[i].ingredients)
  }

  /** A step with its position numbers erased: what a step is apart from where it stands. */
  function Unnumbered(s: Step): Step {
    s.(stepNumber := 0, ingredients := seq(|s.ingredients|, j requires 0 <= j < |s.ingredients| => s.ingredients[j].(ingredientNumber := None)))
  }

  /**
   * The `steps` of the body: each step numbered by its index and each of
   * its lines by its index, whatever numbers the form held.
   */
  function NumberForSubmit(steps: seq<Step>): (r: seq<Step>)
    ensures |r| == |steps| && FullyNumbered(r)
    ensures forall i :: 0 <= i < |r| ==> Unnumbered(r[i]) == Unnumbered(steps[i])
  {
    var r := seq(|steps|, i requires 0 <= i < |steps| => steps[i].(stepNumber := i, ingredients := NumberLines(steps[i].ingredients)));
    assert forall i :: 0 <= i < |r| ==> Unnumbered(r[i]).ingredients == Unnumbered(steps[i]).ingredients;
    r
  }

  /** Numbering for submission changes nothing in steps that are already numbered. */
  lemma NumberForSubmitKeepsNumberedSteps(steps: seq<Step>)
    requires FullyNumbered(steps)
    ensures NumberForSubmit(steps) == steps
  {
    var r := NumberForSubmit(steps);
    forall i | 0 <= i < |steps|
      ensures r[i] == steps[i]
    {
      assert r[i].ingredients == steps[i].ingredients;
    }
  }

  /** Numbering for submission a second time changes nothing. */
  lemma NumberForSubmitIdempotent(steps: seq<Step>)
    ensures NumberForSubmit(NumberForSubmit(steps)) == NumberForSubmit(steps)
  {
    NumberForSubmitKeepsNumberedSteps(NumberForSubmit(steps));
  }

  /** `description.trim() === '' ? undefined : description`: a blank description is dropped, any other is sent untrimmed. */
  function DescriptionField(description: string): (f: Field<string>)
    ensures f.Undefined? <==> JsString.AllWhitespace(description)
    ensures !f.Null?
    ensures f.Present? ==> f.value == description
  {
    JsString.TrimEmptyIffBlank(description);
    if JsString.Trim(description) == "" then Undefined else Present(description)
  }

  /**
   * The request body. The id is that of the recipe being edited (not the
   * form's `id` value), the description and image are normalised, and the
   * step and line numbers are derived from their positions.
   */
  function BuildPayload(existingId: Option<string>, d: Draft): (p: Payload)
    ensures p.id == existingId
    ensures p.description.Undefined? <==> JsString.AllWhitespace(d.description)
    ensures p.description.Present? ==> p.description.value == d.description
    ensures p.image.Present? <==> d.image.Present? && d.image.value != ""
    ensures p.image.Present? ==> p.image == d.image
    ensures p.name == d.name && p.price == d.price && p.tags == d.tags && p.glassWithIce == d.glassWithIce
    ensures p.glassId == d.glassId && p.garnishId == d.garnishId
    ensures |p.steps| == |d.steps| && FullyNumbered(p.steps)
    ensures forall i :: 0 <= i < |p.steps| ==> Unnumbered(p.steps[i]) == Unnumbered(d.steps[i])
  {
    Payload(
      existingId,
      d.name,
      DescriptionField(d.description),
      d.price,
      d.glassId,
      d.garnishId,
      EmptyToNull(d.image),
      d.tags,
      d.glassWithIce,
      NumberForSubmit(d.steps))
  }

  /**
   * Pressing submit: nothing is sent while the error object is non-empty;
   * otherwise the body goes to the cocktails endpoint, by POST for a new
   * recipe and by PUT for an existing one.
   */
  function Submit(existingId: Option<string>, d: Draft): (r: Option<Request>)
    ensures r.Some? <==> RecipeValidation.FormComplete(d)
    ensures r.Some? ==> (r.value.verb == Http.Post <==> existingId.None?)
    ensures r.Some? ==> r.value.url == CocktailsApi && r.value.body == BuildPayload(existingId, d)
  {
    RecipeValidation.ValidIffComplete(d);
    if !RecipeValidation.Validate(d).IsEmpty() then None
    else
      Some(Request(if existingId == None then Http.Post else Http.Put, CocktailsApi, BuildPayload(existingId, d)))
  }

  /** After the response: replace the page with the cocktail list when the status starts with '2', otherwise alert the status. */
  function Finish(status: nat, statusText: string): (o: Http.Outcome)
    ensures o.Navigate? <==> Http.LeadingDigit(status) == 2
    ensures 100 <= status <= 999 ==> (o.Navigate? <==> 200 <= status <= 299)
    ensures o.Navigate? ==> o.path == CocktailsListing
  {
    Http.Settle(status, statusText, CocktailsListing)
  }

  /** Deleting a step leaves stale numbers in the form, but the submitted body is numbered by position. */
  lemma StaleNumbersRederived(existingId: Option<string>, d: Draft, i: nat)
    requires StepsNumbered(d.steps) && i + 1 < |d.steps|
    ensures Apply(d, DropStep(i)).steps[i].stepNumber != i
    ensures BuildPayload(existingId, Apply(d, DropStep(i))).steps[i].stepNumber == i
  {
    DropStepLeavesStaleNumbers(d, i);
  }

  /**
   * A new recipe "Mojito" at price 8 in glass g1 without ice, with one
   * mixing step that shakes 5 CL of ingredient i1 and no garnish, is
   * created by a POST; a 201 answer leads to the cocktail list.
   */
  lemma MojitoIsCreated()
    ensures
      var line := Line(Some(""), Some("i1"), Some(0), Num(5.0), CL, None);
      var d := Draft("Mojito", "", Num(8.0), [], Some("g1"), "Without", None, None, Null,
                     [Step("", 0, Some(true), SHAKE, [line])]);
      var r := Submit(None, d);
      && r.Some?
      && r.value.verb == Http.Post
      && r.value.body.id == None
      && r.value.body.description == Undefined
      && r.value.body.steps == d.steps
      && Finish(201, "Created") == Http.Navigate(CocktailsListing)
  {
    var line := Line(Some(""), Some("i1"), Some(0), Num(5.0), CL, None);
    var d := Draft("Mojito", "", Num(8.0), [], Some("g1"), "Without", None, None, Null,
                   [Step("", 0, Some(true), SHAKE, [line])]);
    assert !JsString.IsWhitespace(d.name[0]);
    assert RecipeValidation.LineComplete(line);
    assert RecipeValidation.FormComplete(d);
    assert FullyNumbered(d.steps);
    NumberForSubmitKeepsNumberedSteps(d.steps);
  }
}
