# Cocktail recipe and garnish forms, modelled in Dafny

This project models the editing, validation, pricing and submission rules of
two forms of a cocktail-bar management application:

- the **cocktail recipe form** (`components/cocktails/CocktailRecipeForm.tsx`):
  a recipe draft with scalar fields and an ordered list of preparation steps,
  each step with a `mixing` flag, a tool and an ordered list of ingredient
  lines. The buttons move steps and lines up and down (take the element out
  with `filter`, put it back with `splice`, renumber), toggle mixing (which
  resets the tool), add steps and lines and remove them. `validate` builds a
  nested error object; the finance card shows a price total ("Summe");
  `onSubmit` normalises the draft into a request body and sends it by POST or
  PUT;
- the **garnish form** (`components/garnishes/GarnishForm.tsx`): a flat form
  with `validate` on name and price and an `onSubmit` of the same shape.

Each rule is a pure function over immutable datatypes. The modules follow the
source's structure:

| file | module | what it holds |
|---|---|---|
| `js_values.dfy` | `JsValues` | optional values, body properties (`undefined` / `null` / value), number inputs, truthiness, `'' → null` |
| `js_string.dfy` | `JsString` | `trim` (ECMAScript whitespace and line terminators) and `startsWith` |
| `catalog.dfy` | `Catalog` | the catalog ingredients and garnishes both forms use |
| `http.dfy` | `Http` | `status.toString().startsWith('2')` and the response handling both forms share |
| `reorder.dfy` | `Reorder` | the filter-then-splice move, generic over the element type, and its button guards |
| `recipe.dfy` | `Recipe` | the recipe draft, every editing button as an `Action`, invariants over runs of actions |
| `recipe_validation.dfy` | `RecipeValidation` | the recipe `validate` and its error tree |
| `recipe_price.dfy` | `RecipePrice` | the "Summe" total and a step-by-step reference sum |
| `recipe_submit.dfy` | `RecipeSubmit` | the recipe request body, method choice and response handling |
| `garnish_form.dfy` | `GarnishForm` | the garnish form end to end |

Modelling choices:

- A number input holds either a parsed number (`Num`) or `''` (`Blank`),
  which is what Formik stores for `type="number"`. NaN is not a value of
  this type, so the garnish check `isNaN(price)` never holds.
- Amounts, prices and volumes are exact reals. Real addition is associative,
  so it makes no difference that the `reduce` adds from the left.
- The enum members `CocktailUtensil.SHAKE`, `CocktailTool.SINGLE_STRAIN` and
  `CocktailIngredientUnit.CL` are strings named after the members. The enum
  files are not part of this model.
- `Array.prototype.splice` is modelled with its start rules: a negative start
  counts from the end, and the index is clamped to the array. So the model
  also says what a move handler would do if its button were not disabled.
- The line buttons are rendered only inside a mixing step, so `Recipe.Shown`
  offers line actions only for steps whose `mixing` is `true`.
- The mixing toggle reads `values` from before the change. A step that was
  mixing therefore gets `SINGLE_STRAIN`, and any other step gets `SHAKE`.

## Model

| member | source | states |
|---|---|---|
| Reorder.MoveUp | components/cocktails/CocktailRecipeForm.tsx:468-473 | For an index with an upper neighbour, filter-then-splice swaps the element with that neighbour and leaves every other element in place. For every index the result is a permutation of the same length. |
| Reorder.MoveDown | components/cocktails/CocktailRecipeForm.tsx:486-491 | For an index with a lower neighbour, the element is swapped with that neighbour. At the last index the list comes back unchanged. For every index the result is a permutation. |
| Reorder.MoveUpEnabledIffNeighbour | components/cocktails/CocktailRecipeForm.tsx:466 | `disabled={index == 0}` enables move-up exactly at the indices that have an upper neighbour, and there the move is a neighbour swap. |
| Reorder.MoveDownEnabledIffNeighbour | components/cocktails/CocktailRecipeForm.tsx:484 | `disabled={!(length > 1) \|\| index == length - 1}` enables move-down exactly at the indices that have a lower neighbour, and there the move is a neighbour swap. |
| Reorder.MoveDownUndoesMoveUp | components/cocktails/CocktailRecipeForm.tsx:468-495 | Moving an element up and then moving it down again restores the original list. |
| Reorder.MoveUpUndoesMoveDown | components/cocktails/CocktailRecipeForm.tsx:486-495 | Moving an element down and then moving it up again restores the original list. |
| Reorder.MoveUpAtTopWithoutGuard | components/cocktails/CocktailRecipeForm.tsx:466-473 | Without its guard, move-up at index 0 would put the first element second to last, because `splice(-1, …)` counts from the end. With two elements the list is unchanged. With three or more whose first two differ, the list changes. |
| Reorder.RemoveAt | components/cocktails/CocktailRecipeForm.tsx:470-472 | `filter((_, i) => i != index)` drops exactly the element at that index. The elements before it stay in place, those after it move down by one, and the removed element plus the result make up the original multiset. |
| Reorder.SpliceIndex | components/cocktails/CocktailRecipeForm.tsx:473 | Where `splice(start, 0, x)` inserts: at `start` when it lies inside the array, at the end when it is past the end, at `length + start` for a negative start, and at 0 when that is still negative. |
| Reorder.Splice | components/cocktails/CocktailRecipeForm.tsx:491 | `splice(start, 0, x)` puts `x` at that index, keeps the elements before it and shifts the rest up by one. The result holds the old elements plus `x`. |
| Recipe.NumberSteps | components/cocktails/CocktailRecipeForm.tsx:476 | After renumbering, every `stepNumber` equals its index, and each step is otherwise the step at that index. |
| Recipe.NumberLines | components/cocktails/CocktailRecipeForm.tsx:553-556 | After renumbering, every `ingredientNumber` equals its index, and each line is otherwise the line at that index. |
| Recipe.MoveStepUp | components/cocktails/CocktailRecipeForm.tsx:468-477 | The step moves one place up and its upper neighbour moves down. After the move every `stepNumber` equals its index, and the steps are otherwise unchanged. |
| Recipe.MoveStepDown | components/cocktails/CocktailRecipeForm.tsx:486-495 | The step moves one place down and its lower neighbour moves up. After the move every `stepNumber` equals its index, and the steps are otherwise unchanged. |
| Recipe.MoveLineUp | components/cocktails/CocktailRecipeForm.tsx:545-557 | Within one step, the line trades places with the line above it. Every `ingredientNumber` becomes its index, and nothing else in the step changes. |
| Recipe.MoveLineDown | components/cocktails/CocktailRecipeForm.tsx:569-581 | Within one step, the line trades places with the line below it. Every `ingredientNumber` becomes its index, and nothing else in the step changes. |
| Recipe.ToggleMixing | components/cocktails/CocktailRecipeForm.tsx:448-455 | The flag flips, taking a missing flag as off. The tool becomes the default of the new mode, whatever it was before: SHAKE when the step now mixes, SINGLE_STRAIN when it does not. Nothing else in the step changes. |
| Recipe.ToggleTwice | components/cocktails/CocktailRecipeForm.tsx:448-455 | Toggling twice restores the flag and leaves the tool at the default of that mode. The lines are untouched. |
| Recipe.AddStep | components/cocktails/CocktailRecipeForm.tsx:722-741 | Add-step appends a mixing step with tool SHAKE and exactly one numbered line. The existing steps are kept, and step numbering is preserved. |
| Recipe.RemoveStep | components/cocktails/CocktailRecipeForm.tsx:503 | Removing a step drops that one step and keeps the order of the rest. The remaining steps are not renumbered. |
| Recipe.AddLine | components/cocktails/CocktailRecipeForm.tsx:680-686 | The new line is appended after the existing lines and has no resolved ingredient. Nothing else in the step changes. |
| Recipe.RemoveLine | components/cocktails/CocktailRecipeForm.tsx:668 | Removing a line drops that one line and keeps the order of the rest. Nothing else in the step changes. |
| Recipe.InitialDraft | components/cocktails/CocktailRecipeForm.tsx:121-137 | A new recipe starts with an empty name and description, price 0, no tags, no glass, ice `Without`, no garnish id, image `null` and no steps. A stored recipe supplies each field, with a missing name or description replaced by `''`, a missing price by 0, and a missing ice setting by `Without`. Its tags, steps, glass id and garnish id are kept, and the garnish is the first catalog garnish with that id. Its image is kept when present and is `null` otherwise. The price is always a number. |
| Recipe.FindGarnish | components/cocktails/CocktailRecipeForm.tsx:134 | `find` returns a garnish exactly when the catalog has one with the given id. It returns the first such garnish: no earlier catalog entry has that id. A missing id finds nothing. |
| Recipe.Shown | components/cocktails/CocktailRecipeForm.tsx:509 | A step button exists for every step. A line button exists only for the lines of a step whose `mixing` is truthy, because only those steps render their lines. |
| Recipe.Enabled | components/cocktails/CocktailRecipeForm.tsx:466-667 | Up buttons are enabled iff there is an element above. Down buttons are enabled iff there is an element below. A line's delete button is enabled iff the step has at least two lines. Every other button is always enabled. |
| Recipe.Apply | components/cocktails/CocktailRecipeForm.tsx:430-749 | A button press changes only the steps. A press on a missing or disabled button leaves the draft unchanged. |
| Recipe.Run | components/cocktails/CocktailRecipeForm.tsx:430-749 | Any sequence of button presses changes only the steps of the draft. |
| Recipe.ApplyKeepsEveryStepNonEmpty | components/cocktails/CocktailRecipeForm.tsx:667 | If every step has at least one line, no press of any button can leave a step without lines. The only line removal is disabled at one line. |
| Recipe.RunKeepsEveryStepNonEmpty | components/cocktails/CocktailRecipeForm.tsx:664-671 | The same holds over any sequence of presses. |
| Recipe.RemovingTheOnlyLineEmptiesTheStep | components/cocktails/CocktailRecipeForm.tsx:667-668 | At exactly one line the remove button is disabled, and without that guard the step would be left empty. |
| Recipe.StepMoveRenumbers | components/cocktails/CocktailRecipeForm.tsx:474-477 | After an enabled step move, every `stepNumber` equals its index, even if the numbers were stale before. |
| Recipe.ApplyKeepsStepNumbering | components/cocktails/CocktailRecipeForm.tsx:468-741 | Every press except deleting a step keeps the steps numbered by index. |
| Recipe.RunKeepsStepNumbering | components/cocktails/CocktailRecipeForm.tsx:468-741 | Any sequence of presses that deletes no step keeps the steps numbered by index. |
| Recipe.LineMoveRenumbers | components/cocktails/CocktailRecipeForm.tsx:551-556 | After an enabled line move, every `ingredientNumber` of that step equals its index, and all other steps are unchanged. |
| Recipe.DropStepLeavesStaleNumbers | components/cocktails/CocktailRecipeForm.tsx:503 | Deleting a step other than the last leaves a step whose `stepNumber` is one more than its index. |
| RecipeValidation.ValidateLine | components/cocktails/CocktailRecipeForm.tsx:176-185 | Each field of a line is flagged exactly when it is falsy: a blank or zero amount, an empty unit, or a missing or empty ingredient id. The line's error object has keys exactly when the line is incomplete. |
| RecipeValidation.ValidateStep | components/cocktails/CocktailRecipeForm.tsx:164-189 | `mixing` is flagged iff the flag is absent, and `tool` iff the tool is empty. An `ingredients` entry exists iff the step mixes, and then it holds one error object per line. |
| RecipeValidation.AnyLineError | components/cocktails/CocktailRecipeForm.tsx:193-200 | The `hasErrors` scan is true exactly when some step's `ingredients` entry holds an error object with a key. |
| RecipeValidation.StepHasLineErrorIffBlocks | components/cocktails/CocktailRecipeForm.tsx:174-200 | A step's error object reports a line error exactly when the step mixes and has an incomplete line. |
| RecipeValidation.StepErrorList | components/cocktails/CocktailRecipeForm.tsx:162-191 | `stepsErrors` holds one error object per step, in step order, each the error object of that step. |
| RecipeValidation.ValidateSteps | components/cocktails/CocktailRecipeForm.tsx:162-203 | The `steps` key is set exactly when some mixing step has an incomplete line. When set, it holds one error object per step. |
| RecipeValidation.NameMissing | components/cocktails/CocktailRecipeForm.tsx:149 | `!name \|\| name.trim() == ''` flags exactly the empty and whitespace-only names. |
| RecipeValidation.Validate | components/cocktails/CocktailRecipeForm.tsx:147-205 | Each top-level key is set iff its field is missing: a blank name; a blank or zero price; a missing or empty glass id; an empty ice type. The `steps` list appears iff a mixing step has an incomplete line, and then it has one entry per step, in draft order. |
| RecipeValidation.ValidIffComplete | components/cocktails/CocktailRecipeForm.tsx:147-205 | The error object is empty, so the form is submitted, exactly when the draft is complete. Complete means: a non-blank name, a non-zero price, a glass, an ice type, and complete lines in every mixing step. |
| RecipeValidation.NonMixingIngredientsIgnored | components/cocktails/CocktailRecipeForm.tsx:174-189 | Replacing the lines of a step that does not mix never changes the validation result. |
| RecipeValidation.ZeroPriceIsMissing | components/cocktails/CocktailRecipeForm.tsx:152-154 | A price of 0 is reported as missing and blocks submission. |
| RecipeValidation.StepFieldErrorsDropped | components/cocktails/CocktailRecipeForm.tsx:193-203 | A step with no `mixing` flag or no tool has its own errors, but when no line has an error the form's error object stays empty. |
| RecipeValidation.ExactlyTheMissingFieldsReported | components/cocktails/CocktailRecipeForm.tsx:149-157 | With an empty name, a blank price and no glass, and every other field and step valid, exactly those three keys are set. |
| RecipeValidation.NewFormMissesNamePriceAndGlass | components/cocktails/CocktailRecipeForm.tsx:124-137 | A new recipe form reports exactly `name`, `price` and `glassId`, because its price 0 is falsy and no glass is chosen. |
| RecipeValidation.NewStepBlocksSubmission | components/cocktails/CocktailRecipeForm.tsx:728-738 | A step just added by add-step makes validation fail until its line is filled in: its amount is 0 and its ingredient id is empty. |
| RecipePrice.Resolved | components/cocktails/CocktailRecipeForm.tsx:927 | Filtering keeps only lines with a resolved ingredient, all of them taken from the input. The result is empty iff no line is resolved. |
| RecipePrice.ResolvedKeepsMultiplicity | components/cocktails/CocktailRecipeForm.tsx:927 | The filter keeps every resolved line as often as it occurs in the input, and no unresolved line. |
| RecipePrice.ResolvedLines | components/cocktails/CocktailRecipeForm.tsx:925-929 | The flattened list holds only resolved lines. Each comes from some step, and every resolved line of every step is in it. |
| RecipePrice.ResolvedCostIsStepCost | components/cocktails/CocktailRecipeForm.tsx:927-934 | Filtering one step's lines and summing their costs gives that step's sum of contributions. |
| RecipePrice.ResolvedCostIsStepsCost | components/cocktails/CocktailRecipeForm.tsx:925-934 | Filtering, flattening and summing over all steps gives the step-by-step sum of contributions. |
| RecipePrice.Total | components/cocktails/CocktailRecipeForm.tsx:921-937 | When some line is resolved, the total is the step-by-step sum plus the garnish price once. Each resolved line adds `(price ?? 0) / (volume ?? 1) * amount` and an unresolved line adds nothing. When no line is resolved, the total is 0. |
| RecipePrice.AnyStepResolvedIffLinesToSum | components/cocktails/CocktailRecipeForm.tsx:921-935 | The total's guard holds exactly when there is at least one line to `reduce`. So the `reduce`, which has no start value, never runs on an empty array. |
| RecipePrice.GarnishIgnoredWithoutResolvedLines | components/cocktails/CocktailRecipeForm.tsx:921-937 | While no line is resolved the total is 0, whatever garnish is selected. |
| RecipePrice.ExampleTotal | components/cocktails/CocktailRecipeForm.tsx:930-935 | Two resolved lines, 10 per 100 times 5 and 4 per 20 times 10, with no garnish, total 2.5. |
| RecipeSubmit.NumberForSubmit | components/cocktails/CocktailRecipeForm.tsx:218-229 | In the body, every `stepNumber` and `ingredientNumber` equals its index, whatever the form held. Apart from the numbers, each step is the form's step. |
| RecipeSubmit.NumberForSubmitKeepsNumberedSteps | components/cocktails/CocktailRecipeForm.tsx:218-229 | Steps that are already numbered by position are sent exactly as they are. |
| RecipeSubmit.NumberForSubmitIdempotent | components/cocktails/CocktailRecipeForm.tsx:218-229 | Re-deriving the numbers a second time changes nothing. |
| RecipeSubmit.DescriptionField | components/cocktails/CocktailRecipeForm.tsx:211 | The description is left out (`undefined`) exactly when it is blank. Any other description is sent untrimmed, and it is never `null`. |
| JsValues.EmptyToNull | components/cocktails/CocktailRecipeForm.tsx:215 | Only a non-empty image is sent as a value, and then unchanged. `''` becomes `null`, `null` stays `null`, and `undefined` stays `undefined`. |
| RecipeSubmit.BuildPayload | components/cocktails/CocktailRecipeForm.tsx:208-230 | The body carries the edited recipe's id, the normalised description and image, and the other scalar fields unchanged. Its steps are the form's steps numbered by position. |
| RecipeSubmit.Submit | components/cocktails/CocktailRecipeForm.tsx:231-235 | A request is sent exactly when the draft is complete. It goes to `/api/cocktails` with the built body, by POST iff no recipe is being edited. |
| RecipeSubmit.Finish | components/cocktails/CocktailRecipeForm.tsx:236-240 | The form goes to the cocktail list exactly when the status's leading digit is 2, which for three-digit statuses means 200..299. Otherwise it reports the status. |
| RecipeSubmit.StaleNumbersRederived | components/cocktails/CocktailRecipeForm.tsx:218-221 | After a step is deleted, the form holds a stale `stepNumber`, but the body numbers that step by its position. |
| RecipeSubmit.MojitoIsCreated | components/cocktails/CocktailRecipeForm.tsx:208-237 | A complete new "Mojito" draft is sent by POST without an id. Its blank description is dropped and its steps are unchanged. A 201 answer leads to the cocktail list. |
| Http.DecimalString | components/cocktails/CocktailRecipeForm.tsx:236 | `status.toString()` is a non-empty string of decimal digits that denotes `status` (`DigitsValue(s) == status`), with no leading zero for a positive status. |
| Http.IsSuccess | components/garnishes/GarnishForm.tsx:40 | The success test: the decimal form of the status starts with '2'. |
| Http.SuccessIffLeadingTwo | components/cocktails/CocktailRecipeForm.tsx:236 | `status.toString().startsWith('2')` holds exactly when the leading decimal digit of the status is 2. |
| Http.ThreeDigitSuccess | components/garnishes/GarnishForm.tsx:40 | For statuses from 100 to 999, the test accepts exactly 200..299. |
| Http.Settle | components/garnishes/GarnishForm.tsx:40-44 | On success the form navigates to the given listing. Otherwise it reports a message that starts with the status digits. |
| JsString.TrimStart | components/garnishes/GarnishForm.tsx:32 | The first half of `trim`: the result is a suffix of the input, everything dropped is whitespace, and the result is empty or starts with a non-whitespace character. |
| JsString.TrimEnd | components/garnishes/GarnishForm.tsx:32 | The second half of `trim`: the result is a prefix of the input, everything dropped is whitespace, and the result is empty or ends with a non-whitespace character. |
| JsString.Trim | components/garnishes/GarnishForm.tsx:32 | `trim` applies both halves. The result is no longer than the input, and it neither starts nor ends with whitespace. |
| JsString.TrimEmptyIffBlank | components/cocktails/CocktailRecipeForm.tsx:149 | `s.trim() == ''` holds exactly for strings made of whitespace only. |
| JsString.TrimIdempotent | components/garnishes/GarnishForm.tsx:32 | Trimming an already trimmed string changes nothing. |
| GarnishForm.InitialValues | components/garnishes/GarnishForm.tsx:20-25 | A new form starts with an empty name, price 0, an empty description and no image. A stored garnish brings its name and price, its description or `''` when it has none, and its image exactly when it has one. The price is always a number. |
| GarnishForm.Validate | components/garnishes/GarnishForm.tsx:49-58 | The only keys are `name` and `price`, each with 'Required'. `name` is set iff the name is empty, with no trim. `price` is set iff the price input is blank, so 0 is accepted. |
| GarnishForm.DescriptionField | components/garnishes/GarnishForm.tsx:32 | The description is `null` exactly when it is blank. Otherwise it is the trimmed text, which is non-empty and already trimmed. It is never `undefined`. |
| GarnishForm.BuildPayload | components/garnishes/GarnishForm.tsx:28-34 | The id is present iff a stored garnish is edited, and then it is that garnish's id. Name and price pass through. A blank description becomes `null`, and any other is trimmed. Only a non-empty image is sent as a value. |
| GarnishForm.Submit | components/garnishes/GarnishForm.tsx:35-39 | A request is sent exactly when the name is non-empty and the price is a number. It goes to `/api/garnishes`, by POST and without an id iff no garnish is edited. |
| GarnishForm.Finish | components/garnishes/GarnishForm.tsx:40-44 | The form goes to the garnish list exactly when the status's leading digit is 2, which for three-digit statuses means 200..299. |
| GarnishForm.NewFormMissesOnlyName | components/garnishes/GarnishForm.tsx:20-25 | A fresh form, with an empty name and price 0, reports exactly one error, on `name`. |
| GarnishForm.StoredGarnishIsUpdated | components/garnishes/GarnishForm.tsx:29-36 | The unchanged form of a stored garnish that has a name passes validation. It is sent by PUT under that garnish's id. |
| GarnishForm.BlankNameAccepted | components/garnishes/GarnishForm.tsx:51-53 | A name made only of blanks raises no error, because the check does not trim. |
| GarnishForm.DescriptionStable | components/garnishes/GarnishForm.tsx:32 | Normalising a description that the body already carries gives back the same description. |

## Quirks the model keeps

- A missing `mixing` flag or tool on its own is never reported. The step's
  errors reach the form's error object only when some line has an error
  (`RecipeValidation.StepFieldErrorsDropped`).
- A blank recipe description is sent as `undefined`, and any other is sent
  untrimmed (`RecipeSubmit.DescriptionField`). Only the garnish body trims and
  uses `null` (`GarnishForm.DescriptionField`).
- The total shows 0 until some ingredient line is resolved, whatever garnish
  is selected (`RecipePrice.GarnishIgnoredWithoutResolvedLines`).
- Move-up at index 0 and move-down at the last index are prevented only by
  the disabled buttons. The move-down handler at the last index would leave
  the list unchanged. The move-up handler at index 0 would put the first
  element second to last, which changes a list of three or more whose first
  two elements differ (`Reorder.MoveUpAtTopWithoutGuard`).
- A price of 0 blocks the recipe form (`RecipeValidation.ZeroPriceIsMissing`)
  but passes the garnish form (`GarnishForm.NewFormMissesOnlyName`). So a new
  recipe form starts with the `price` error
  (`RecipeValidation.NewFormMissesNamePriceAndGlass`).

## Left out

- Catalog fetching, the effect that re-seeds the steps once the catalog has loaded (CocktailRecipeForm.tsx:100-119), router
  navigation, `alert`, `console.error` and `alertService` are not modelled:
  they are I/O and framework lifecycle. The response status and status text
  are parameters, and `Http.Outcome` stands for navigating or reporting.
  Replace versus push, and alert versus console, are not distinguished.
- The recipe form's `id` value is not modelled. The body takes its id from
  the stored recipe instead.
- JSX rendering, Formik and `FieldArray` internals, `handleChange`,
  `handleBlur` and `touched` are not modelled: they are UI plumbing.
  - Formik's checkbox handling of a `mixing` value that is not a boolean is
    not followed. `Recipe.ToggleMixing` takes a missing flag as off and
    stores a boolean.
- Image upload and base64 conversion, and the tag handling (`updateTags`,
  `validateTag`), are not modelled. They call modules that are not part of
  this model. The image and the tags pass through as given.
- Floating-point arithmetic and the `toFixed(2)` display are not modelled.
  The total is an exact real.
- RecipePrice.Total: requires every resolved ingredient's volume to be
  non-zero. The source divides by the volume without a guard, so a stored
  volume of 0 would show Infinity or NaN there.
- The render-time `sort` of a step's lines by `ingredientNumber`
  (CocktailRecipeForm.tsx:534) is not modelled. It sorts the stored list in
  place, so the line-move handlers, `removeIngredient`, `validate` and the
  submit body all see its result. The model's line lists stand for the stored
  lists after that sort. They are assumed to be in `ingredientNumber` order
  already, which holds after any line move because moves renumber. The model
  leaves out two cases: reordering a stored recipe whose lines arrive out of
  order, and the NaN comparisons of lines pushed without a number.
- The `localeCompare` sort of the ingredient catalog (:621) is not modelled.
  It only orders the options of a select.
- The form fields `glass`, `showImage` and `showTags` are not part of
  `Recipe.Draft`. `showImage` and `showTags` only toggle parts of the page.
  `glass` is read only in `values.glass == ''` (:158), and an object or
  `null` is never loosely equal to `''`.
- Persisted columns that the forms only carry along, such as
  `cocktailRecipeId` and `cocktailRecipeStepId`, are left out of the
  datatypes. They pass through the spread copies unchanged.
- `models/CocktailCardFull.tsx` is a type alias with no behaviour.
