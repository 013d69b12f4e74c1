/**
 * The "Summe" shown in the finance card of the recipe form: the cost of
 * every ingredient line whose catalog entry is resolved, plus the garnish.
 * Amounts are exact reals; the two-decimal display formatting is not part
 * of this model.
 */
module RecipePrice {
  import opened JsValues
  import opened Catalog
  import opened Recipe

  /** The volume the form divides by is not zero (a missing volume counts as 1). */
  predicate VolumeUsable(l: Line) {
    l.ingredient.Some? ==> l.ingredient.value.volume != Some(0.0)
  }

  /** Every line of every step has a usable volume. */
  predicate VolumesUsable(steps: seq<Step>) {
    forall i, j :: 0 <= i < |steps| && 0 <= j < |steps[i].ingredients| ==> VolumeUsable(steps[i].ingredients[j])
  }

  /** `(price ?? 0) / (volume ?? 1)`. */
  function UnitPrice(ing: Ingredient): real
    requires ing.volume != Some(0.0)
  {
    Coalesce(ing.price, 0.0) / Coalesce(ing.volume, 1.0)
  }

  /** `unitPrice * (amount ?? 0)` for a resolved line; a blank amount multiplies as 0. */
  function LineCost(l: Line): real
    requires l.ingredient.Some? && VolumeUsable(l)
  {
    UnitPrice(l.ingredient.value) * NumberValue(l.amount)
  }

  /** `lines.filter((l) => l.ingredient != undefined)`. */
  function Resolved(lines: seq<Line>): (r: seq<Line>)
    ensures |r| <= |lines|
    ensures forall k :: 0 <= k < |r| ==> r[k].ingredient.Some?
    ensures forall k :: 0 <= k < |r| ==> r[k] in lines
    ensures r == [] <==> forall j :: 0 <= j < |lines| ==> lines[j].ingredient.None?
    decreases |lines|
  {
    if lines == [] then []
    else
      var rest := Resolved(lines[1..]);
      assert forall j :: 1 <= j < |lines| ==> lines[j] == lines[1..][j - 1];
      if lines[0].ingredient.Some? then [lines[0]] + rest else rest
  }

  /** The filter keeps every resolved line as often as it occurs, and no unresolved line. */
  lemma {:induction false} ResolvedKeepsMultiplicity(lines: seq<Line>, l: Line)
    ensures l.ingredient.Some? ==> multiset(Resolved(lines))[l] == multiset(lines)[l]
    ensures l.ingredient.None? ==> multiset(Resolved(lines))[l] == 0
    decreases |lines|
  {
    if lines != [] {
      ResolvedKeepsMultiplicity(lines[1..], l);
      assert lines == [lines[0]] + lines[1..];
      assert multiset(lines) == multiset{lines[0]} + multiset(lines[1..]);
      if lines[0].ingredient.Some? {
        assert Resolved(lines) == [lines[0]] + Resolved(lines[1..]);
        assert multiset(Resolved(lines)) == multiset{lines[0]} + multiset(Resolved(lines[1..]));
      } else {
        assert Resolved(lines) == Resolved(lines[1..]);
      }
    }
  }

  /** `steps.map((step) => step.ingredients.filter(...)).flat()`. */
  function ResolvedLines(steps: seq<Step>): (r: seq<Line>)
    ensures forall k :: 0 <= k < |r| ==> r[k].ingredient.Some?
    ensures forall i, j :: 0 <= i < |steps| && 0 <= j < |steps[i].ingredients| && steps[i].ingredients[j].ingredient.Some? ==>
      steps[i].ingredients[j] in r
    ensures forall k :: 0 <= k < |r| ==> exists i :: 0 <= i < |steps| && r[k] in steps[i].ingredients
    decreases |steps|
  {
    if steps == [] then []
    else
      var head := Resolved(steps[0].ingredients);
      var tail := ResolvedLines(steps[1..]);
      forall i, j | 0 <= i < |steps| && 0 <= j < |steps[i].ingredients| && steps[i].ingredients[j].ingredient.Some?
        ensures steps[i].ingredients[j] in head + tail
      {
        if i == 0 {
          ResolvedKeepsMultiplicity(steps[0].ingredients, steps[0].ingredients[j]);
          assert multiset(steps[0].ingredients)[steps[0].ingredients[j]] > 0;
          assert steps[i].ingredients[j] in head;
        } else {
          assert steps[i] == steps[1..][i - 1];
          assert steps[i].ingredients[j] in tail;
        }
      }
      forall k | 0 <= k < |head + tail|
        ensures exists i :: 0 <= i < |steps| && (head + tail)[k] in steps[i].ingredients
      {
        if k < |head| {
          assert (head + tail)[k] in steps[0].ingredients;
        } else {
          var i :| 0 <= i < |steps[1..]| && tail[k - |head|] in steps[1..][i].ingredients;
          assert (head + tail)[k] in steps[i + 1].ingredients;
        }
      }
      head + tail
  }

  /** The cost of each line of a list of resolved lines. */
  function Costs(lines: seq<Line>): (r: seq<real>)
    requires forall k :: 0 <= k < |lines| ==> lines[k].ingredient.Some? && VolumeUsable(lines[k])
    ensures |r| == |lines|
  {
    seq(|lines|, k requires 0 <= k < |lines| => LineCost(lines[k]))
  }

  function Sum(xs: seq<real>): real
    decreases |xs|
  {
    if xs == [] then 0.0 else xs[0] + Sum(xs[1..])
  }

  /** `steps.filter((s) => s.ingredients.some((l) => l.ingredient != undefined)).length > 0`. */
  predicate AnyStepResolved(steps: seq<Step>) {
    exists i, j :: 0 <= i < |steps| && 0 <= j < |steps[i].ingredients| && steps[i].ingredients[j].ingredient.Some?
  }

  /** The garnish price `garnish?.price ?? 0`. */
  function GarnishPrice(g: Option<Garnish>): real {
    if g.Some? then g.value.price else 0.0
  }

  /** Every resolved line that is collected has a usable volume. */
  lemma {:induction false} ResolvedLinesUsable(steps: seq<Step>)
    requires VolumesUsable(steps)
    ensures forall k :: 0 <= k < |ResolvedLines(steps)| ==> VolumeUsable(ResolvedLines(steps)[k])
    decreases |steps|
  {
    if steps != [] {
      assert VolumesUsable(steps[1..]) by {
        forall i, j | 0 <= i < |steps[1..]| && 0 <= j < |steps[1..][i].ingredients|
          ensures VolumeUsable(steps[1..][i].ingredients[j])
        {
          assert steps[1..][i] == steps[i + 1];
        }
      }
      ResolvedLinesUsable(steps[1..]);
      var head := Resolved(steps[0].ingredients);
      forall k | 0 <= k < |head|
        ensures VolumeUsable(head[k])
      {
        var j :| 0 <= j < |steps[0].ingredients| && steps[0].ingredients[j] == head[k];
      }
    }
  }

  /**
   * The "Summe". When no step has a resolved line the form shows `0.00`
   * without looking at the garnish; otherwise it adds up the resolved line
   * costs (the `reduce` has no start value, which the guard keeps from
   * failing) and adds the garnish price once.
   */
  function Total(d: Draft): (t: real)
    requires VolumesUsable(d.steps)
    ensures AnyStepResolved(d.steps) ==> t == StepsCost(d.steps) + GarnishPrice(d.garnish)
    ensures !AnyStepResolved(d.steps) ==> t == 0.0
  {
    ResolvedLinesUsable(d.steps);
    ResolvedCostIsStepsCost(d.steps);
    if AnyStepResolved(d.steps) then Sum(Costs(ResolvedLines(d.steps))) + GarnishPrice(d.garnish)
    else 0.0
  }

  /** What one line adds to the total: its cost when resolved, nothing otherwise. */
  function Contribution(l: Line): real
    requires VolumeUsable(l)
  {
    if l.ingredient.Some? then LineCost(l) else 0.0
  }

  /** The cost of one step: the contributions of its lines. */
  function StepCost(lines: seq<Line>): real
    requires forall j :: 0 <= j < |lines| ==> VolumeUsable(lines[j])
    decreases |lines|
  {
    if lines == [] then 0.0 else Contribution(lines[0]) + StepCost(lines[1..])
  }

  /** The cost of all steps, step by step. */
  function StepsCost(steps: seq<Step>): real
    requires VolumesUsable(steps)
    decreases |steps|
  {
    if steps == [] then 0.0
    else
      assert forall i, j :: 0 <= i < |steps[1..]| && 0 <= j < |steps[1..][i].ingredients| ==>
        steps[1..][i].ingredients[j] == steps[i + 1].ingredients[j];
      assert forall j :: 0 <= j < |steps[0].ingredients| ==> VolumeUsable(steps[0].ingredients[j]);
      StepCost(steps[0].ingredients) + StepsCost(steps[1..])
  }

  lemma {:induction false} SumAppend(a: seq<real>, b: seq<real>)
    ensures Sum(a + b) == Sum(a) + Sum(b)
    decreases |a|
  {
    if a == [] {
      assert a + b == b;
    } else {
      assert (a + b)[1..] == a[1..] + b;
      SumAppend(a[1..], b);
    }
  }

  lemma CostsAppend(a: seq<Line>, b: seq<Line>)
    requires forall k :: 0 <= k < |a| ==> a[k].ingredient.Some? && VolumeUsable(a[k])
    requires forall k :: 0 <= k < |b| ==> b[k].ingredient.Some? && VolumeUsable(b[k])
    ensures Costs(a + b) == Costs(a) + Costs(b)
  {
  }

  /** Filtering then summing the costs of one step's lines is the step cost. */
  lemma {:induction false} ResolvedCostIsStepCost(lines: seq<Line>)
    requires forall j :: 0 <= j < |lines| ==> VolumeUsable(lines[j])
    ensures forall k :: 0 <= k < |Resolved(lines)| ==> VolumeUsable(Resolved(lines)[k])
    ensures Sum(Costs(Resolved(lines))) == StepCost(lines)
    decreases |lines|
  {
    forall k | 0 <= k < |Resolved(lines)|
      ensures VolumeUsable(Resolved(lines)[k])
    {
      assert Resolved(lines)[k] in lines;
    }
    if lines != [] {
      var tail := lines[1..];
      assert forall j :: 0 <= j < |tail| ==> tail[j] == lines[j + 1];
      ResolvedCostIsStepCost(tail);
      var rest := Resolved(tail);
      if lines[0].ingredient.Some? {
        assert Resolved(lines) == [lines[0]] + rest;
        CostsAppend([lines[0]], rest);
        SumAppend(Costs([lines[0]]), Costs(rest));
      } else {
        assert Resolved(lines) == rest;
      }
    }
  }

  /** Filtering, flattening and summing the costs of all steps is the sum of the step costs. */
  lemma {:induction false} ResolvedCostIsStepsCost(steps: seq<Step>)
    requires VolumesUsable(steps)
    ensures forall k :: 0 <= k < |ResolvedLines(steps)| ==> VolumeUsable(ResolvedLines(steps)[k])
    ensures Sum(Costs(ResolvedLines(steps))) == StepsCost(steps)
    decreases |steps|
  {
    ResolvedLinesUsable(steps);
    if steps != [] {
      var tail := steps[1..];
      assert VolumesUsable(tail) by {
        forall i, j | 0 <= i < |tail| && 0 <= j < |tail[i].ingredients|
          ensures VolumeUsable(tail[i].ingredients[j])
        {
          assert tail[i] == steps[i + 1];
        }
      }
      ResolvedCostIsStepsCost(tail);
      assert forall j :: 0 <= j < |steps[0].ingredients| ==> VolumeUsable(steps[0].ingredients[j]);
      ResolvedCostIsStepCost(steps[0].ingredients);
      var head := Resolved(steps[0].ingredients);
      CostsAppend(head, ResolvedLines(tail));
      SumAppend(Costs(head), Costs(ResolvedLines(tail)));
    }
  }

  /** The guard of the total holds exactly when there are lines to `reduce`. */
  lemma {:induction false} AnyStepResolvedIffLinesToSum(steps: seq<Step>)
    ensures AnyStepResolved(steps) <==> |ResolvedLines(steps)| > 0
    decreases |steps|
  {
    if steps != [] {
      var tail := steps[1..];
      AnyStepResolvedIffLinesToSum(tail);
      if AnyStepResolved(steps) {
        var i, j :| 0 <= i < |steps| && 0 <= j < |steps[i].ingredients| && steps[i].ingredients[j].ingredient.Some?;
        if i > 0 {
          assert tail[i - 1].ingredients[j].ingredient.Some?;
        }
      }
      if Resolved(steps[0].ingredients) != [] {
        var j :| 0 <= j < |steps[0].ingredients| && steps[0].ingredients[j].ingredient.Some?;
      }
      if AnyStepResolved(tail) {
        var i, j :| 0 <= i < |tail| && 0 <= j < |tail[i].ingredients| && tail[i].ingredients[j].ingredient.Some?;
        assert steps[i + 1].ingredients[j].ingredient.Some?;
      }
    }
  }

  /** A selected garnish is left out of the total while no ingredient line is resolved. */
  lemma GarnishIgnoredWithoutResolvedLines(d: Draft, g: Garnish)
    requires VolumesUsable(d.steps)
    requires forall i, j :: 0 <= i < |d.steps| && 0 <= j < |d.steps[i].ingredients| ==> d.steps[i].ingredients[j].ingredient.None?
    ensures Total(d.(garnish := Some(g))) == 0.0
  {
  }

  /** Two resolved lines, 10 per 100 times 5 and 4 per 20 times 10, and no garnish: 0.5 + 2.0. */
  lemma ExampleTotal()
    ensures
      var a := Line(None, Some("a"), Some(0), Num(5.0), CL, Some(Ingredient("a", "A", Some(10.0), Some(100.0))));
      var b := Line(None, Some("b"), Some(1), Num(10.0), CL, Some(Ingredient("b", "B", Some(4.0), Some(20.0))));
      var d := Draft("Sour", "", Num(8.0), [], Some("g"), "Without", None, None, Null,
                     [Step("s", 0, Some(true), SHAKE, [a, b])]);
      VolumesUsable(d.steps) && Total(d) == 2.5
  {
    var a := Line(None, Some("a"), Some(0), Num(5.0), CL, Some(Ingredient("a", "A", Some(10.0), Some(100.0))));
    var b := Line(None, Some("b"), Some(1), Num(10.0), CL, Some(Ingredient("b", "B", Some(4.0), Some(20.0))));
    var d := Draft("Sour", "", Num(8.0), [], Some("g"), "Without", None, None, Null,
                   [Step("s", 0, Some(true), SHAKE, [a, b])]);
    assert d.steps[0].ingredients[0].ingredient.Some?;
    assert d.steps[1..] == [];
    assert StepsCost(d.steps) == StepCost([a, b]);
    assert StepCost([b]) == 2.0;
    assert StepCost([a, b]) == 0.5 + StepCost([a, b][1..]);
    assert [a, b][1..] == [b];
  }
}
