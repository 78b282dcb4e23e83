/**
 * The list operations of a react-hook-form field array (`useFieldArray`), on
 * which both the question list of the poll editor and the option list of each
 * choice question are edited: `append(x)`, `remove(index)` and
 * `move(from, to)`. Move takes the element out at `from` and puts it back in at
 * `to`; the elements in between shift by one place.
 */
module FieldArray {

  /** `remove(k)`: exactly the element at `k` is deleted, the others keep their order. */
  function RemoveAt<T>(s: seq<T>, k: nat): (r: seq<T>)
    requires k < |s|
    ensures |r| == |s| - 1
    ensures forall i :: 0 <= i < k ==> r[i] == s[i]
    ensures forall i :: k <= i < |r| ==> r[i] == s[i + 1]
    ensures multiset(r) + multiset{s[k]} == multiset(s)
  {
    assert s == s[..k] + [s[k]] + s[k + 1..];
    s[..k] + s[k + 1..]
  }

  function InsertAt<T>(s: seq<T>, k: nat, x: T): seq<T>
    requires k <= |s|
  {
    s[..k] + [x] + s[k..]
  }

  /** `move(from, to)`. */
  function Move<T>(s: seq<T>, from: nat, to: nat): seq<T>
    requires from < |s| && to < |s|
  {
    InsertAt(RemoveAt(s, from), to, s[from])
  }

  /** Where each element of `s` ends up after `move(from, to)`. */
  lemma MoveAt<T>(s: seq<T>, from: nat, to: nat, i: nat)
    requires from < |s| && to < |s| && i < |s|
    ensures |Move(s, from, to)| == |s|
    ensures Move(s, from, to)[i] ==
      if i == to then s[from]
      else if from <= i < to then s[i + 1]
      else if to < i <= from then s[i - 1]
      else s[i]
  {
  }

  /**
   * A move keeps the multiset of elements, puts the moved element at `to`,
   * and leaves every other element in its relative order: removing the moved
   * element afterwards gives what removing it beforehand gives.
   */
  lemma MoveSpec<T>(s: seq<T>, from: nat, to: nat)
    requires from < |s| && to < |s|
    ensures |Move(s, from, to)| == |s|
    ensures Move(s, from, to)[to] == s[from]
    ensures RemoveAt(Move(s, from, to), to) == RemoveAt(s, from)
    ensures multiset(Move(s, from, to)) == multiset(s)
  {
    var r := RemoveAt(s, from);
    var m := Move(s, from, to);
    assert m == r[..to] + [s[from]] + r[to..];
    assert RemoveAt(m, to) == r;
    calc {
      multiset(m);
      multiset(r[..to]) + multiset{s[from]} + multiset(r[to..]);
      { assert r == r[..to] + r[to..]; }
      multiset(r) + multiset{s[from]};
      multiset(s);
    }
  }

  /** Moving one place up or down swaps two neighbours and touches nothing else. */
  lemma MoveAdjacentIsSwap<T>(s: seq<T>, k: nat)
    requires k + 1 < |s|
    ensures Move(s, k, k + 1) == s[k := s[k + 1]][k + 1 := s[k]]
    ensures Move(s, k + 1, k) == s[k := s[k + 1]][k + 1 := s[k]]
  {
    var w := s[k := s[k + 1]][k + 1 := s[k]];
    forall i | 0 <= i < |s| ensures Move(s, k, k + 1)[i] == w[i] && Move(s, k + 1, k)[i] == w[i] {
      MoveAt(s, k, k + 1, i);
      MoveAt(s, k + 1, k, i);
    }
    MoveAt(s, k, k + 1, 0);
    MoveAt(s, k + 1, k, 0);
  }

  /** Moving back undoes a move. */
  lemma MoveInverse<T>(s: seq<T>, from: nat, to: nat)
    requires from < |s| && to < |s|
    ensures Move(Move(s, from, to), to, from) == s
  {
    var m := Move(s, from, to);
    MoveAt(s, from, to, 0);
    forall i | 0 <= i < |s| ensures Move(m, to, from)[i] == s[i] {
      MoveAt(m, to, from, i);
      if i == from {
        MoveAt(s, from, to, to);
      } else if to <= i < from {
        MoveAt(s, from, to, i + 1);
      } else if from < i <= to {
        MoveAt(s, from, to, i - 1);
      } else {
        MoveAt(s, from, to, i);
      }
    }
  }

  /** The "move up" arrow of row `k` is disabled on the first row. */
  predicate CanMoveUp(k: nat) {
    k != 0
  }

  /** The "move down" arrow of row `k` of `count` rows is disabled on the last row. */
  predicate CanMoveDown(k: nat, count: nat) {
    k != count - 1
  }

  /**
   * On a rendered row, an enabled arrow only ever issues a move whose both
   * indices lie inside the list, and that move swaps the row with its neighbour.
   */
  lemma EnabledMovesSwapNeighbours<T>(s: seq<T>, k: nat)
    requires k < |s|
    ensures CanMoveUp(k) ==> k - 1 >= 0 && Move(s, k, k - 1) == s[k - 1 := s[k]][k := s[k - 1]]
    ensures CanMoveDown(k, |s|) ==> k + 1 < |s| && Move(s, k, k + 1) == s[k := s[k + 1]][k + 1 := s[k]]
  {
    if CanMoveUp(k) {
      MoveAdjacentIsSwap(s, k - 1);
    }
    if CanMoveDown(k, |s|) {
      MoveAdjacentIsSwap(s, k);
    }
  }
}
