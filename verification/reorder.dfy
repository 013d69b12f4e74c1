/**
 * The reordering algorithm the recipe form uses for steps and for the
 * ingredient lines of a step: take the element out with
 * `filter((_, k) => k != i)`, put it back with `splice(i - 1, 0, x)` or
 * `splice(i + 1, 0, x)`. Renumbering is done by the callers, which know the
 * position field of their element type.
 */
module Reorder {

  /** `s.filter((_, k) => k != i)` for an index `i` of `s`. */
  function RemoveAt<T>(s: seq<T>, i: nat): (r: seq<T>)
    requires i < |s|
    ensures |r| == |s| - 1
    ensures forall k :: 0 <= k < i ==> r[k] == s[k]
    ensures forall k :: i <= k < |r| ==> r[k] == s[k + 1]
    ensures multiset(r) + multiset{s[i]} == multiset(s)
  {
    assert s == s[..i] + [s[i]] + s[i + 1..];
    s[..i] + s[i + 1..]
  }

  /**
   * Where `splice(start, 0, x)` inserts into an array of length `len`:
   * a negative start counts from the end, and the result is clamped to `0..len`.
   */
  function SpliceIndex(len: nat, start: int): (a: nat)
    ensures a <= len
    ensures 0 <= start <= len ==> a == start
    ensures start > len ==> a == len
    ensures start < 0 && 0 <= len + start ==> a == len + start
    ensures len + start < 0 ==> a == 0
  {
    if start < 0 then (if len + start < 0 then 0 else len + start)
    else if start > len then len
    else start
  }

  /** The array after `splice(start, 0, x)`. */
  function Splice<T>(s: seq<T>, start: int, x: T): (r: seq<T>)
    ensures |r| == |s| + 1
    ensures var a := SpliceIndex(|s|, start); r[a] == x && r[..a] == s[..a] && r[a + 1..] == s[a..]
    ensures multiset(r) == multiset(s) + multiset{x}
  {
    var a := SpliceIndex(|s|, start);
    assert s == s[..a] + s[a..];
    s[..a] + [x] + s[a..]
  }

  /** The index whose element lands at `k` when the neighbours at `i` and `i + 1` are exchanged. */
  function SwapIndex(k: nat, i: nat): nat {
    if k == i then i + 1 else if k == i + 1 then i else k
  }

  /** `r` is `s` with the neighbours at `i` and `i + 1` exchanged and nothing else changed. */
  ghost predicate SwappedAt<T>(s: seq<T>, r: seq<T>, i: nat) {
    && |r| == |s|
    && i + 1 < |s|
    && forall k :: 0 <= k < |r| ==> r[k] == s[SwapIndex(k, i)]
  }

  /** The move-up handler: remove the element at `i`, reinsert it at `i - 1`. */
  function MoveUp<T>(s: seq<T>, i: nat): (r: seq<T>)
    requires i < |s|
    ensures |r| == |s|
    ensures multiset(r) == multiset(s)
    ensures 0 < i ==> SwappedAt(s, r, i - 1)
  {
    var t := RemoveAt(s, i);
    var r := Splice(t, i - 1, s[i]);
    assert 0 < i ==> SwappedAt(s, r, i - 1) by {
      if 0 < i {
        assert SpliceIndex(|t|, i - 1) == i - 1;
        forall k | 0 <= k < |r|
          ensures r[k] == s[SwapIndex(k, i - 1)]
        {
          if k < i - 1 {
            assert r[k] == t[k];
          } else if k > i - 1 {
            assert r[k] == t[k - 1];
          }
        }
      }
    }
    r
  }

  /** The move-down handler: remove the element at `i`, reinsert it at `i + 1`. */
  function MoveDown<T>(s: seq<T>, i: nat): (r: seq<T>)
    requires i < |s|
    ensures |r| == |s|
    ensures multiset(r) == multiset(s)
    ensures i + 1 < |s| ==> SwappedAt(s, r, i)
    ensures i + 1 == |s| ==> r == s
  {
    Splice(RemoveAt(s, i), i + 1, s[i])
  }

  /** The `disabled` guard of a move-up button, negated: `disabled={index == 0}`. */
  predicate MoveUpEnabled(i: nat) {
    !(i == 0)
  }

  /** The `disabled` guard of a move-down button, negated: `disabled={!(length > 1) || index == length - 1}`. */
  predicate MoveDownEnabled(len: nat, i: nat) {
    !(!(len > 1) || i == len - 1)
  }

  /** Exactly the indices that have an upper neighbour get an enabled move-up button. */
  lemma MoveUpEnabledIffNeighbour<T>(s: seq<T>, i: nat)
    requires i < |s|
    ensures MoveUpEnabled(i) <==> 0 < i
    ensures MoveUpEnabled(i) ==> SwappedAt(s, MoveUp(s, i), i - 1)
  {
  }

  /** Exactly the indices that have a lower neighbour get an enabled move-down button. */
  lemma MoveDownEnabledIffNeighbour<T>(s: seq<T>, i: nat)
    requires i < |s|
    ensures MoveDownEnabled(|s|, i) <==> i + 1 < |s|
    ensures MoveDownEnabled(|s|, i) ==> SwappedAt(s, MoveDown(s, i), i)
  {
  }

  /** Moving an element up and then down again restores the list. */
  lemma MoveDownUndoesMoveUp<T>(s: seq<T>, i: nat)
    requires 0 < i < |s|
    ensures MoveDown(MoveUp(s, i), i - 1) == s
  {
    var u := MoveUp(s, i);
    var d := MoveDown(u, i - 1);
    assert forall k :: 0 <= k < |s| ==> d[k] == s[k];
  }

  /** Moving an element down and then up again restores the list. */
  lemma MoveUpUndoesMoveDown<T>(s: seq<T>, i: nat)
    requires i + 1 < |s|
    ensures MoveUp(MoveDown(s, i), i + 1) == s
  {
    var d := MoveDown(s, i);
    var u := MoveUp(d, i + 1);
    assert forall k :: 0 <= k < |s| ==> u[k] == s[k];
  }

  /**
   * What the move-up handler would do at index 0 if its button were not
   * disabled: `splice(-1, 0, x)` counts from the end, so the first element
   * lands second to last. With two elements that is where it was; with
   * three or more whose first two differ the list changes.
   */
  lemma MoveUpAtTopWithoutGuard<T>(s: seq<T>)
    requires |s| >= 2
    ensures MoveUp(s, 0) == s[1..|s| - 1] + [s[0], s[|s| - 1]]
    ensures |s| == 2 ==> MoveUp(s, 0) == s
    ensures |s| >= 3 && s[0] != s[1] ==> MoveUp(s, 0) != s
  {
    var r := MoveUp(s, 0);
    assert r == s[1..|s| - 1] + [s[0], s[|s| - 1]] by {
      var t := RemoveAt(s, 0);
      assert r == Splice(t, -1, s[0]);
      var a := SpliceIndex(|t|, -1);
      assert a == |s| - 2;
      assert r == t[..a] + [s[0]] + t[a..];
      assert t[..a] == s[1..|s| - 1];
      assert t[a..] == [s[|s| - 1]];
    }
    if |s| >= 3 && s[0] != s[1] {
      assert r[0] == s[1];
    }
  }
}
