/**
 * The state of the cocktail recipe form and the editing operations its
 * buttons perform: moving steps and ingredient lines, toggling whether a
 * step mixes, adding and removing steps and lines.
 */
module Recipe {
  import opened JsValues
  import opened Catalog
  import Reorder

  /** `CocktailUtensil.SHAKE`, the default tool of a mixing step. */
  const SHAKE: string := "SHAKE"
  /** `CocktailTool.SINGLE_STRAIN`, the default tool of a step that does not mix. */
  const SINGLE_STRAIN: string := "SINGLE_STRAIN"
  /** `CocktailIngredientUnit.CL`, the default unit of a new line. */
  const CL: string := "CL"

  /**
   * One ingredient line of a step. `ingredient` is the catalog entry the
   * line's `ingredientId` was resolved to, if any. Lines added with the
   * "add ingredient" button carry no id, ingredient id or number.
   */
  datatype Line = Line(
    id: Option<string>,
    ingredientId: Option<string>,
    ingredientNumber: Option<int>,
    amount: NumberInput,
    unit: string,
    ingredient: Option<Ingredient>)

  /** One preparation step. */
  datatype Step = Step(id: string, stepNumber: int, mixing: Option<bool>, tool: string, ingredients: seq<Line>)

  /** The form values of the recipe being edited. */
  datatype Draft = Draft(
    name: string,
    description: string,
    price: NumberInput,
    tags: seq<string>,
    glassId: Option<string>,
    glassWithIce: string,
    garnishId: Option<string>,
    garnish: Option<Garnish>,
    image: Field<string>,
    steps: seq<Step>)

  /** `IceType.Without`, the ice setting of a new recipe. */
  const WITHOUT_ICE: string := "Without"

  /** A stored recipe handed to the form for editing; the fields read with `??` may be missing. */
  datatype StoredRecipe = StoredRecipe(
    name: Option<string>,
    description: Option<string>,
    price: Option<real>,
    tags: seq<string>,
    glassWithIce: Option<string>,
    image: Option<string>,
    glassId: Option<string>,
    garnishId: Option<string>,
    steps: seq<Step>)

  /** `garnishes.find((g) => g.id == id)`: the first catalog garnish with that id; none for a missing id. */
  function FindGarnish(garnishes: seq<Garnish>, id: Option<string>): (g: Option<Garnish>)
    ensures g.Some? <==> exists k :: 0 <= k < |garnishes| && Some(garnishes[k].id) == id
    ensures g.Some? ==> g.value in garnishes && Some(g.value.id) == id
    ensures g.Some? ==> exists k :: 0 <= k < |garnishes| && garnishes[k] == g.value && forall m :: 0 <= m < k ==> Some(garnishes[m].id) != id
    decreases |garnishes|
  {
    if garnishes == [] then None
    else if Some(garnishes[0].id) == id then Some(garnishes[0])
    else
      var g := FindGarnish(garnishes[1..], id);
      assert forall k :: 1 <= k < |garnishes| ==> garnishes[k] == garnishes[1..][k - 1];
      if g.Some? then
        var k :| 0 <= k < |garnishes[1..]| && garnishes[1..][k] == g.value && forall m :: 0 <= m < k ==> Some(garnishes[1..][m].id) != id;
        assert forall m :: 0 <= m < k + 1 ==> Some(garnishes[m].id) != id by {
          forall m | 0 <= m < k + 1
            ensures Some(garnishes[m].id) != id
          {
            if m > 0 {
              assert garnishes[m] == garnishes[1..][m - 1];
            }
          }
        }
        g
      else g
  }

  /**
   * The form's initial values: the stored recipe's fields, each missing one
   * replaced by its default, or for a new recipe an empty name, price 0, no
   * glass, no ice, no image and no steps.
   */
  function InitialDraft(stored: Option<StoredRecipe>, garnishes: seq<Garnish>): (d: Draft)
    ensures d.price.Num? && d.image != Undefined
    ensures stored.None? ==> d.name == "" && d.price == Num(0.0) && d.glassId == None && d.glassWithIce != "" && d.steps == []
    ensures stored.None? ==> d.description == "" && d.tags == [] && d.glassWithIce == WITHOUT_ICE && d.garnishId == None && d.image == Null
    ensures stored.Some? ==> d.steps == stored.value.steps && d.glassId == stored.value.glassId
    ensures stored.Some? ==> d.name == Coalesce(stored.value.name, "") && d.description == Coalesce(stored.value.description, "")
    ensures stored.Some? ==> d.price == Num(Coalesce(stored.value.price, 0.0)) && d.tags == stored.value.tags
    ensures stored.Some? ==> d.glassWithIce == Coalesce(stored.value.glassWithIce, WITHOUT_ICE)
    ensures stored.Some? ==> d.garnishId == stored.value.garnishId && d.garnish == FindGarnish(garnishes, stored.value.garnishId)
    ensures stored.Some? ==> (d.image.Present? <==> stored.value.image.Some?)
    ensures stored.Some? && stored.value.image.Some? ==> d.image == Present(stored.value.image.value)
    ensures d.garnish.Some? ==> d.garnishId.Some? && d.garnish.value.id == d.garnishId.value
  {
    match stored
    case None => Draft("", "", Num(0.0), [], None, WITHOUT_ICE, None, FindGarnish(garnishes, None), Null, [])
    case Some(s) =>
      Draft(
        Coalesce(s.name, ""),
        Coalesce(s.description, ""),
        Num(Coalesce(s.price, 0.0)),
        s.tags,
        s.glassId,
        if s.glassWithIce.Some? then s.glassWithIce.value else WITHOUT_ICE,
        s.garnishId,
        FindGarnish(garnishes, s.garnishId),
        if s.image.Some? then Present(s.image.value) else Null,
        s.steps)
  }

  /** Every step's `stepNumber` is its index. */
  predicate StepsNumbered(steps: seq<Step>) {
    forall i :: 0 <= i < |steps| ==> steps[i].stepNumber == i
  }

  /** Every line's `ingredientNumber` is its index within the step. */
  predicate LinesNumbered(lines: seq<Line>) {
    forall j :: 0 <= j < |lines| ==> lines[j].ingredientNumber == Some(j)
  }

  /** `steps.map((step, index) => ({ ...step, stepNumber: index }))`. */
  function NumberSteps(steps: seq<Step>): (r: seq<Step>)
    ensures |r| == |steps| && StepsNumbered(r)
    ensures forall i :: 0 <= i < |r| ==> r[i] == steps[i].(stepNumber := i)
  {
    seq(|steps|, i requires 0 <= i < |steps| => steps[i].(stepNumber := i))
  }

  /** `lines.map((line, index) => ({ ...line, ingredientNumber: index }))`. */
  function NumberLines(lines: seq<Line>): (r: seq<Line>)
    ensures |r| == |lines| && LinesNumbered(r)
    ensures forall j :: 0 <= j < |r| ==> r[j] == lines[j].(ingredientNumber := Some(j))
  {
    seq(|lines|, j requires 0 <= j < |lines| => lines[j].(ingredientNumber := Some(j)))
  }

  /** Move-up on the steps: the step at `i` and the one above it trade places, then all steps are renumbered. */
  function MoveStepUp(steps: seq<Step>, i: nat): (r: seq<Step>)
    requires i < |steps|
    ensures |r| == |steps| && StepsNumbered(r)
    ensures 0 < i ==> forall k :: 0 <= k < |r| ==> r[k] == steps[Reorder.SwapIndex(k, i - 1)].(stepNumber := k)
  {
    NumberSteps(Reorder.MoveUp(steps, i))
  }

  /** Move-down on the steps: the step at `i` and the one below it trade places, then all steps are renumbered. */
  function MoveStepDown(steps: seq<Step>, i: nat): (r: seq<Step>)
    requires i < |steps|
    ensures |r| == |steps| && StepsNumbered(r)
    ensures i + 1 < |steps| ==> forall k :: 0 <= k < |r| ==> r[k] == steps[Reorder.SwapIndex(k, i)].(stepNumber := k)
  {
    NumberSteps(Reorder.MoveDown(steps, i))
  }

  /** Move-up on the lines of a step: line `j` and the one above trade places, the lines are renumbered, nothing else in the step changes. */
  function MoveLineUp(step: Step, j: nat): (r: Step)
    requires j < |step.ingredients|
    ensures r.(ingredients := step.ingredients) == step
    ensures |r.ingredients| == |step.ingredients| && LinesNumbered(r.ingredients)
    ensures 0 < j ==> forall k :: 0 <= k < |r.ingredients| ==>
      r.ingredients[k] == step.ingredients[Reorder.SwapIndex(k, j - 1)].(ingredientNumber := Some(k))
  {
    step.(ingredients := NumberLines(Reorder.MoveUp(step.ingredients, j)))
  }

  /** Move-down on the lines of a step: line `j` and the one below trade places, the lines are renumbered, nothing else in the step changes. */
  function MoveLineDown(step: Step, j: nat): (r: Step)
    requires j < |step.ingredients|
    ensures r.(ingredients := step.ingredients) == step
    ensures |r.ingredients| == |step.ingredients| && LinesNumbered(r.ingredients)
    ensures j + 1 < |step.ingredients| ==> forall k :: 0 <= k < |r.ingredients| ==>
      r.ingredients[k] == step.ingredients[Reorder.SwapIndex(k, j)].(ingredientNumber := Some(k))
  {
    step.(ingredients := NumberLines(Reorder.MoveDown(step.ingredients, j)))
  }

  /** The tool a step is reset to when it switches to mixing (`true`) or to not mixing (`false`). */
  function DefaultTool(mixing: bool): string {
    if mixing then SHAKE else SINGLE_STRAIN
  }

  /**
   * The mixing checkbox: the flag flips and the tool is reset to the
   * default of the new mode, whatever it was. The handler reads the value
   * from before the change, so a step that was mixing gets `SINGLE_STRAIN`.
   */
  function ToggleMixing(step: Step): (r: Step)
    ensures r.mixing == Some(!BoolTruthy(step.mixing))
    ensures r.tool == DefaultTool(BoolTruthy(r.mixing))
    ensures r.(mixing := step.mixing, tool := step.tool) == step
  {
    var wasMixing := BoolTruthy(step.mixing);
    step.(mixing := Some(!wasMixing), tool := if wasMixing then SINGLE_STRAIN else SHAKE)
  }

  /** Toggling twice restores the flag and leaves the tool at the default of that mode. */
  lemma ToggleTwice(step: Step)
    ensures ToggleMixing(ToggleMixing(step)).mixing == Some(BoolTruthy(step.mixing))
    ensures ToggleMixing(ToggleMixing(step)).tool == DefaultTool(BoolTruthy(step.mixing))
    ensures ToggleMixing(ToggleMixing(step)).ingredients == step.ingredients
  {
  }

  /** The line a new step starts with. */
  const FirstLine: Line := Line(Some(""), Some(""), Some(0), Num(0.0), CL, None)

  /** The line the "add ingredient" button pushes: amount 0, unit CL, no ingredient and no number. */
  const PushedLine: Line := Line(None, None, None, Num(0.0), CL, None)

  /** Add-step: a mixing step with tool SHAKE and one empty line, numbered after the existing steps. */
  function AddStep(steps: seq<Step>): (r: seq<Step>)
    ensures |r| == |steps| + 1 && r[..|steps|] == steps
    ensures StepsNumbered(steps) ==> StepsNumbered(r)
    ensures var s := r[|steps|]; BoolTruthy(s.mixing) && s.tool == DefaultTool(true) && |s.ingredients| == 1 && LinesNumbered(s.ingredients)
  {
    steps + [Step("", |steps|, Some(true), SHAKE, [FirstLine])]
  }

  /** The delete button of a step; no renumbering follows. */
  function RemoveStep(steps: seq<Step>, i: nat): (r: seq<Step>)
    requires i < |steps|
    ensures |r| == |steps| - 1
    ensures forall k :: 0 <= k < |r| ==> r[k] == steps[if k < i then k else k + 1]
  {
    Reorder.RemoveAt(steps, i)
  }

  /** The "add ingredient" button of a mixing step. */
  function AddLine(step: Step): (r: Step)
    ensures r.(ingredients := step.ingredients) == step
    ensures |r.ingredients| == |step.ingredients| + 1 && r.ingredients[..|step.ingredients|] == step.ingredients
    ensures r.ingredients[|step.ingredients|].ingredient.None?
  {
    step.(ingredients := step.ingredients + [PushedLine])
  }

  /** The delete button of a line; no renumbering follows. */
  function RemoveLine(step: Step, j: nat): (r: Step)
    requires j < |step.ingredients|
    ensures r.(ingredients := step.ingredients) == step
    ensures |r.ingredients| == |step.ingredients| - 1
    ensures forall k :: 0 <= k < |r.ingredients| ==> r.ingredients[k] == step.ingredients[if k < j then k else k + 1]
  {
    step.(ingredients := Reorder.RemoveAt(step.ingredients, j))
  }

  /** The `disabled` guard of a line's delete button, negated: `disabled={ingredients.length == 1}`. */
  predicate RemoveLineEnabled(count: nat) {
    !(count == 1)
  }

  /** One press of a button of the steps editor. */
  datatype Action =
    | StepUp(step: nat)
    | StepDown(step: nat)
    | ToggleStep(step: nat)
    | PushStep
    | DropStep(step: nat)
    | LineUp(step: nat, line: nat)
    | LineDown(step: nat, line: nat)
    | PushLine(step: nat)
    | DropLine(step: nat, line: nat)

  /**
   * The button for `a` is on screen: its step (and line) exist, and the
   * line buttons belong to a mixing step, as only those render their lines.
   */
  predicate Shown(d: Draft, a: Action) {
    match a
    case StepUp(i) => i < |d.steps|
    case StepDown(i) => i < |d.steps|
    case ToggleStep(i) => i < |d.steps|
    case PushStep => true
    case DropStep(i) => i < |d.steps|
    case LineUp(i, j) => i < |d.steps| && BoolTruthy(d.steps[i].mixing) && j < |d.steps[i].ingredients|
    case LineDown(i, j) => i < |d.steps| && BoolTruthy(d.steps[i].mixing) && j < |d.steps[i].ingredients|
    case PushLine(i) => i < |d.steps| && BoolTruthy(d.steps[i].mixing)
    case DropLine(i, j) => i < |d.steps| && BoolTruthy(d.steps[i].mixing) && j < |d.steps[i].ingredients|
  }

  /** The button for `a` is not disabled. */
  predicate Enabled(d: Draft, a: Action)
    requires Shown(d, a)
    ensures a.StepUp? ==> (Enabled(d, a) <==> a.step > 0)
    ensures a.StepDown? ==> (Enabled(d, a) <==> a.step + 1 < |d.steps|)
    ensures a.LineUp? ==> (Enabled(d, a) <==> a.line > 0)
    ensures a.LineDown? ==> (Enabled(d, a) <==> a.line + 1 < |d.steps[a.step].ingredients|)
    ensures a.DropLine? ==> (Enabled(d, a) <==> |d.steps[a.step].ingredients| >= 2)
  {
    match a
    case StepUp(i) => Reorder.MoveUpEnabled(i)
    case StepDown(i) => Reorder.MoveDownEnabled(|d.steps|, i)
    case LineUp(i, j) => Reorder.MoveUpEnabled(j)
    case LineDown(i, j) => Reorder.MoveDownEnabled(|d.steps[i].ingredients|, j)
    case DropLine(i, j) => RemoveLineEnabled(|d.steps[i].ingredients|)
    case _ => true
  }

  /** The effect of pressing the button for `a`; a missing or disabled button does nothing. */
  function Apply(d: Draft, a: Action): (r: Draft)
    ensures r.(steps := d.steps) == d
    ensures !(Shown(d, a) && Enabled(d, a)) ==> r == d
  {
    if !(Shown(d, a) && Enabled(d, a)) then d
    else
      match a
      case StepUp(i) => d.(steps := MoveStepUp(d.steps, i))
      case StepDown(i) => d.(steps := MoveStepDown(d.steps, i))
      case ToggleStep(i) => d.(steps := d.steps[i := ToggleMixing(d.steps[i])])
      case PushStep => d.(steps := AddStep(d.steps))
      case DropStep(i) => d.(steps := RemoveStep(d.steps, i))
      case LineUp(i, j) => d.(steps := d.steps[i := MoveLineUp(d.steps[i], j)])
      case LineDown(i, j) => d.(steps := d.steps[i := MoveLineDown(d.steps[i], j)])
      case PushLine(i) => d.(steps := d.steps[i := AddLine(d.steps[i])])
      case DropLine(i, j) => d.(steps := d.steps[i := RemoveLine(d.steps[i], j)])
  }

  /** The effect of a sequence of presses. */
  function Run(d: Draft, actions: seq<Action>): (r: Draft)
    ensures r.(steps := d.steps) == d
    decreases |actions|
  {
    if actions == [] then d else Run(Apply(d, actions[0]), actions[1..])
  }

  /** Every step has at least one ingredient line. */
  predicate EveryStepHasALine(steps: seq<Step>) {
    forall i :: 0 <= i < |steps| ==> |steps[i].ingredients| >= 1
  }

  /** No button press leaves a step without lines: the only removal of a line is disabled at one line. */
  lemma ApplyKeepsEveryStepNonEmpty(d: Draft, a: Action)
    requires EveryStepHasALine(d.steps)
    ensures EveryStepHasALine(Apply(d, a).steps)
  {
    if Shown(d, a) && Enabled(d, a) {
      var r := Apply(d, a);
      match a
      case StepUp(i) =>
        forall k | 0 <= k < |r.steps|
          ensures |r.steps[k].ingredients| >= 1
        {
          assert r.steps[k] == d.steps[Reorder.SwapIndex(k, i - 1)].(stepNumber := k);
        }
      case StepDown(i) =>
        forall k | 0 <= k < |r.steps|
          ensures |r.steps[k].ingredients| >= 1
        {
          assert r.steps[k] == d.steps[Reorder.SwapIndex(k, i)].(stepNumber := k);
        }
      case DropLine(i, j) =>
        assert |r.steps[i].ingredients| >= 1;
      case _ =>
    }
  }

  /** Over any sequence of presses, a draft whose steps all have a line keeps that property. */
  lemma {:induction false} RunKeepsEveryStepNonEmpty(d: Draft, actions: seq<Action>)
    requires EveryStepHasALine(d.steps)
    ensures EveryStepHasALine(Run(d, actions).steps)
    decreases |actions|
  {
    if actions != [] {
      ApplyKeepsEveryStepNonEmpty(d, actions[0]);
      RunKeepsEveryStepNonEmpty(Apply(d, actions[0]), actions[1..]);
    }
  }

  /** Without its guard, deleting the only line of a step would leave the step empty. */
  lemma RemovingTheOnlyLineEmptiesTheStep(step: Step)
    requires |step.ingredients| == 1
    ensures RemoveLine(step, 0).ingredients == []
    ensures !RemoveLineEnabled(|step.ingredients|)
  {
  }

  /** An enabled step move leaves every `stepNumber` equal to its index, whatever the numbers were before. */
  lemma StepMoveRenumbers(d: Draft, a: Action)
    requires a.StepUp? || a.StepDown?
    requires Shown(d, a) && Enabled(d, a)
    ensures StepsNumbered(Apply(d, a).steps)
  {
  }

  /** Every press except deleting a step keeps the steps numbered by their index. */
  lemma ApplyKeepsStepNumbering(d: Draft, a: Action)
    requires StepsNumbered(d.steps)
    requires !a.DropStep?
    ensures StepsNumbered(Apply(d, a).steps)
  {
  }

  /** Over any sequence of presses that deletes no step, the steps stay numbered by their index. */
  lemma {:induction false} RunKeepsStepNumbering(d: Draft, actions: seq<Action>)
    requires StepsNumbered(d.steps)
    requires forall k :: 0 <= k < |actions| ==> !actions[k].DropStep?
    ensures StepsNumbered(Run(d, actions).steps)
    decreases |actions|
  {
    if actions != [] {
      ApplyKeepsStepNumbering(d, actions[0]);
      RunKeepsStepNumbering(Apply(d, actions[0]), actions[1..]);
    }
  }

  /** An enabled line move leaves every `ingredientNumber` of that step equal to its index. */
  lemma LineMoveRenumbers(d: Draft, a: Action)
    requires a.LineUp? || a.LineDown?
    requires Shown(d, a) && Enabled(d, a)
    ensures LinesNumbered(Apply(d, a).steps[a.step].ingredients)
    ensures forall k :: 0 <= k < |d.steps| && k != a.step ==> Apply(d, a).steps[k] == d.steps[k]
  {
  }

  /** Deleting a step that is not the last one leaves a step whose number is not its index. */
  lemma DropStepLeavesStaleNumbers(d: Draft, i: nat)
    requires StepsNumbered(d.steps)
    requires i + 1 < |d.steps|
    ensures Apply(d, DropStep(i)).steps[i].stepNumber == i + 1
  {
  }
}
