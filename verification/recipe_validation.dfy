/**
 * The `validate` callback of the recipe form: the error object Formik
 * shows next to the fields, and whose emptiness decides whether the form
 * is submitted.
 */
module RecipeValidation {
  import opened JsValues
  import opened Catalog
  import JsString
  import opened Recipe

  /** The error object of one ingredient line; `true` marks a key set to 'Required'. */
  datatype LineErrors = LineErrors(amount: bool, unit: bool, ingredientId: bool) {
    /** `Object.keys(errors).length > 0`. */
    predicate HasKeys() {
      amount || unit || ingredientId
    }
  }

  /** The error object of one step; `ingredients` is only set for mixing steps. */
  datatype StepErrors = StepErrors(mixing: bool, tool: bool, ingredients: Option<seq<LineErrors>>)

  /** The error object of the whole form; `steps` is only set when some line has an error. */
  datatype RecipeErrors = RecipeErrors(
    name: bool,
    price: bool,
    glassId: bool,
    glassWithIce: bool,
    steps: Option<seq<StepErrors>>)
  {
    /** The object has no keys, so Formik goes on to submit. */
    predicate IsEmpty() {
      !name && !price && !glassId && !glassWithIce && steps.None?
    }
  }

  /** A line none of whose fields is missing: a non-zero amount, a unit and an ingredient. */
  predicate LineComplete(l: Line) {
    && l.amount != Blank && l.amount != Num(0.0)
    && l.unit != ""
    && l.ingredientId != None && l.ingredientId != Some("")
  }

  /** Every line of the list is complete. */
  predicate AllComplete(lines: seq<Line>) {
    forall j :: 0 <= j < |lines| ==> LineComplete(lines[j])
  }

  /** Each field is flagged exactly when it is falsy: a blank or zero amount, an empty unit, a missing or empty ingredient id. */
  function ValidateLine(l: Line): (e: LineErrors)
    ensures e.amount <==> (l.amount == Blank || l.amount == Num(0.0))
    ensures e.unit <==> l.unit == ""
    ensures e.ingredientId <==> (l.ingredientId == None || l.ingredientId == Some(""))
    ensures e.HasKeys() <==> !LineComplete(l)
  {
    // `!unit || unit == ''` on a string field is the single test `unit == ''`.
    LineErrors(
      !NumberTruthy(l.amount),
      l.unit == "",
      !StringTruthy(l.ingredientId) || l.ingredientId == Some(""))
  }

  /** The step's error object: `mixing` when the flag is absent, `tool` when none is chosen, and one line entry per line of a mixing step. */
  function ValidateStep(s: Step): (e: StepErrors)
    ensures e.mixing <==> s.mixing.None?
    ensures e.tool <==> s.tool == ""
    ensures e.ingredients.Some? <==> s.mixing == Some(true)
    ensures e.ingredients.Some? ==> |e.ingredients.value| == |s.ingredients|
    ensures e.ingredients.Some? ==> forall j :: 0 <= j < |s.ingredients| ==> e.ingredients.value[j] == ValidateLine(s.ingredients[j])
  {
    StepErrors(
      s.mixing.None?,
      s.tool == "",
      if BoolTruthy(s.mixing) then Some(seq(|s.ingredients|, j requires 0 <= j < |s.ingredients| => ValidateLine(s.ingredients[j])))
      else None)
  }

  /** Some line entry of this step error object has a key. */
  predicate StepHasLineError(e: StepErrors) {
    e.ingredients.Some? && exists j :: 0 <= j < |e.ingredients.value| && e.ingredients.value[j].HasKeys()
  }

  /** The `hasErrors` scan over the step error objects, one step at a time. */
  function AnyLineError(errors: seq<StepErrors>): (b: bool)
    ensures b <==> exists i :: 0 <= i < |errors| && StepHasLineError(errors[i])
    decreases |errors|
  {
    if errors == [] then false
    else
      var rest := AnyLineError(errors[1..]);
      assert forall i :: 1 <= i < |errors| ==> errors[i] == errors[1..][i - 1];
      StepHasLineError(errors[0]) || rest
  }

  /** A mixing step with an incomplete line: the only thing that makes the form report its steps. */
  predicate StepBlocks(s: Step) {
    BoolTruthy(s.mixing) && !AllComplete(s.ingredients)
  }

  /** The step error object reports a line error exactly for a mixing step with an incomplete line. */
  lemma StepHasLineErrorIffBlocks(s: Step)
    ensures StepHasLineError(ValidateStep(s)) <==> StepBlocks(s)
  {
    var e := ValidateStep(s);
    if StepBlocks(s) {
      var j :| 0 <= j < |s.ingredients| && !LineComplete(s.ingredients[j]);
      assert e.ingredients.value[j].HasKeys();
    }
  }

  /** The `stepsErrors` list: one error object per step, in step order. */
  function StepErrorList(steps: seq<Step>): (r: seq<StepErrors>)
    ensures |r| == |steps|
    ensures forall i :: 0 <= i < |steps| ==> r[i] == ValidateStep(steps[i])
  {
    seq(|steps|, i requires 0 <= i < |steps| => ValidateStep(steps[i]))
  }

  /** The `steps` key: the step error list, present only when a mixing step has an incomplete line. */
  function ValidateSteps(steps: seq<Step>): (r: Option<seq<StepErrors>>)
    ensures r.Some? <==> exists i :: 0 <= i < |steps| && StepBlocks(steps[i])
    ensures r.Some? ==> r.value == StepErrorList(steps)
  {
    var stepsErrors := StepErrorList(steps);
    assert forall i :: 0 <= i < |steps| ==> (StepHasLineError(stepsErrors[i]) <==> StepBlocks(steps[i])) by {
      forall i | 0 <= i < |steps| {
        StepHasLineErrorIffBlocks(steps[i]);
      }
    }
    if AnyLineError(stepsErrors) then Some(stepsErrors) else None
  }

  /** The `name` check `!name || name.trim() == ''` flags exactly the blank names. */
  function NameMissing(name: string): (b: bool)
    ensures b <==> JsString.AllWhitespace(name)
  {
    JsString.TrimEmptyIffBlank(name);
    name == "" || JsString.Trim(name) == ""
  }

  /**
   * The form's `validate`. Name, price, glass and ice are checked on their
   * own; the per-step error list is reported only when some line of a mixing
   * step has an error, so a missing `mixing` flag or tool alone is dropped.
   */
  function Validate(d: Draft): (e: RecipeErrors)
    ensures e.name <==> JsString.AllWhitespace(d.name)
    ensures e.price <==> (d.price == Blank || d.price == Num(0.0))
    ensures e.glassId <==> (d.glassId == None || d.glassId == Some(""))
    ensures e.glassWithIce <==> d.glassWithIce == ""
    ensures e.steps.Some? <==> exists i :: 0 <= i < |d.steps| && StepBlocks(d.steps[i])
    ensures e.steps.Some? ==> |e.steps.value| == |d.steps|
    ensures e.steps.Some? ==> forall i :: 0 <= i < |d.steps| ==> e.steps.value[i] == ValidateStep(d.steps[i])
  {
    RecipeErrors(
      NameMissing(d.name),
      !NumberTruthy(d.price),
      // `!glassId || glassId == ''`
      !StringTruthy(d.glassId) || d.glassId == Some(""),
      // `!glassWithIce || glass == ''`: the glass object is never loosely equal to ''
      d.glassWithIce == "",
      ValidateSteps(d.steps))
  }

  /** Everything the form requires is filled in: what an empty error object means. */
  predicate FormComplete(d: Draft) {
    && !JsString.AllWhitespace(d.name)
    && d.price.Num? && d.price.value != 0.0
    && d.glassId.Some? && d.glassId.value != ""
    && d.glassWithIce != ""
    && forall i :: 0 <= i < |d.steps| && d.steps[i].mixing == Some(true) ==> AllComplete(d.steps[i].ingredients)
  }

  /** The form is submitted exactly when it is complete. */
  lemma ValidIffComplete(d: Draft)
    ensures Validate(d).IsEmpty() <==> FormComplete(d)
  {
    var e := Validate(d);
    if !FormComplete(d) && !e.name && !e.price && !e.glassId && !e.glassWithIce {
      var i :| 0 <= i < |d.steps| && d.steps[i].mixing == Some(true) && !AllComplete(d.steps[i].ingredients);
      assert StepBlocks(d.steps[i]);
    }
  }

  /** The ingredients of a step that does not mix are never inspected. */
  lemma NonMixingIngredientsIgnored(d: Draft, i: nat, lines: seq<Line>)
    requires i < |d.steps|
    requires !BoolTruthy(d.steps[i].mixing)
    ensures Validate(d.(steps := d.steps[i := d.steps[i].(ingredients := lines)])) == Validate(d)
  {
    var d' := d.(steps := d.steps[i := d.steps[i].(ingredients := lines)]);
    assert ValidateStep(d'.steps[i]) == ValidateStep(d.steps[i]);
    assert StepErrorList(d'.steps) == StepErrorList(d.steps);
    assert ValidateSteps(d'.steps) == ValidateSteps(d.steps);
  }

  /** A price of 0 is reported as missing. */
  lemma ZeroPriceIsMissing(d: Draft)
    requires d.price == Num(0.0)
    ensures Validate(d).price && !Validate(d).IsEmpty()
  {
  }

  /** A step without its `mixing` flag or tool is not reported when no line has an error. */
  lemma StepFieldErrorsDropped(d: Draft)
    requires FormComplete(d)
    requires exists i :: 0 <= i < |d.steps| && (d.steps[i].mixing.None? || d.steps[i].tool == "")
    ensures exists i :: 0 <= i < |d.steps| && (ValidateStep(d.steps[i]).mixing || ValidateStep(d.steps[i]).tool)
    ensures Validate(d).IsEmpty()
  {
    ValidIffComplete(d);
  }

  /** Blank name, no price and no glass, with otherwise valid fields and steps: exactly those three are reported. */
  lemma ExactlyTheMissingFieldsReported(d: Draft)
    requires d.name == "" && d.price == Blank && d.glassId == None
    requires d.glassWithIce != ""
    requires forall i :: 0 <= i < |d.steps| ==> !StepBlocks(d.steps[i])
    ensures Validate(d) == RecipeErrors(true, true, true, false, None)
  {
  }

  /** A new recipe form starts with exactly the name, price and glass errors: its price 0 is falsy and no glass is chosen. */
  lemma NewFormMissesNamePriceAndGlass(garnishes: seq<Garnish>)
    ensures Validate(InitialDraft(None, garnishes)) == RecipeErrors(true, true, true, false, None)
  {
  }

  /** A step just added with the add-step button blocks submission until its line is filled in. */
  lemma NewStepBlocksSubmission(d: Draft)
    ensures !Validate(d.(steps := AddStep(d.steps))).IsEmpty()
  {
    var steps := AddStep(d.steps);
    var s := steps[|d.steps|];
    assert !LineComplete(s.ingredients[0]);
    assert StepBlocks(s);
  }
}
