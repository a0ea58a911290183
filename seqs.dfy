/**
 * Order-preserving selection from a sequence: the positions whose element
 * satisfies a predicate, and the selected elements themselves. Python's
 * list comprehensions with an `if` and the "append when the test passes"
 * loops of the repository are all instances of this.
 */
module Seqs {

  /** Indices of the elements of `xs` that satisfy `p`, in increasing order. */
  function Positions<T>(xs: seq<T>, p: T -> bool): (r: seq<nat>)
    ensures |r| <= |xs|
    ensures forall j :: 0 <= j < |r| ==> r[j] < |xs| && p(xs[r[j]])
    ensures forall j, k :: 0 <= j < k < |r| ==> r[j] < r[k]
    decreases |xs|
  {
    if xs == [] then []
    else
      var prev := Positions(xs[..|xs| - 1], p);
      assert forall j :: 0 <= j < |prev| ==> xs[..|xs| - 1][prev[j]] == xs[prev[j]];
      if p(xs[|xs| - 1]) then prev + [|xs| - 1] else prev
  }

  /** The elements of `xs` that satisfy `p`, in their original order. */
  function Filter<T>(xs: seq<T>, p: T -> bool): (r: seq<T>)
    decreases |xs|
  {
    if xs == [] then []
    else
      var prev := Filter(xs[..|xs| - 1], p);
      if p(xs[|xs| - 1]) then prev + [xs[|xs| - 1]] else prev
  }

  /** Extending the input by one element extends the positions by at most that element's index. */
  lemma PositionsSnoc<T>(xs: seq<T>, x: T, p: T -> bool)
    ensures Positions(xs + [x], p) == Positions(xs, p) + (if p(x) then [|xs|] else [])
  {
    assert (xs + [x])[..|xs|] == xs;
  }

  lemma FilterSnoc<T>(xs: seq<T>, x: T, p: T -> bool)
    ensures Filter(xs + [x], p) == Filter(xs, p) + (if p(x) then [x] else [])
  {
    assert (xs + [x])[..|xs|] == xs;
  }

  /** The filtered sequence is exactly the elements found at the selected positions. */
  lemma {:induction false} FilterAtPositions<T>(xs: seq<T>, p: T -> bool)
    ensures |Filter(xs, p)| == |Positions(xs, p)|
    ensures forall j :: 0 <= j < |Filter(xs, p)| ==> Filter(xs, p)[j] == xs[Positions(xs, p)[j]]
    decreases |xs|
  {
    if xs != [] {
      var init := xs[..|xs| - 1];
      FilterAtPositions(init, p);
      assert forall j :: 0 <= j < |Positions(init, p)| ==> init[Positions(init, p)[j]] == xs[Positions(init, p)[j]];
    }
  }

  /** Every element that satisfies `p` is selected. */
  lemma {:induction false} PositionsComplete<T>(xs: seq<T>, p: T -> bool, i: nat)
    requires i < |xs| && p(xs[i])
    ensures exists j :: 0 <= j < |Positions(xs, p)| && Positions(xs, p)[j] == i
    decreases |xs|
  {
    var init := xs[..|xs| - 1];
    if i < |xs| - 1 {
      assert init[i] == xs[i];
      PositionsComplete(init, p, i);
      var j :| 0 <= j < |Positions(init, p)| && Positions(init, p)[j] == i;
      assert Positions(xs, p)[j] == i;
    } else {
      assert Positions(xs, p)[|Positions(xs, p)| - 1] == i;
    }
  }

  /** Filtering keeps every element exactly when all of them pass. */
  lemma {:induction false} FilterAll<T>(xs: seq<T>, p: T -> bool)
    ensures (Filter(xs, p) == xs) <==> (forall i :: 0 <= i < |xs| ==> p(xs[i]))
    decreases |xs|
  {
    FilterAtPositions(xs, p);
    if forall i :: 0 <= i < |xs| ==> p(xs[i]) {
      if xs != [] {
        var init := xs[..|xs| - 1];
        FilterAll(init, p);
        assert Filter(init, p) == init;
        assert init + [xs[|xs| - 1]] == xs;
      }
    }
    assert forall j :: 0 <= j < |Filter(xs, p)| ==> p(Filter(xs, p)[j]);
  }

  /**
   * The selected elements, each mapped with its index in `xs` and its rank
   * among the selected ones: the shape of a loop that appends `f(x, i, n)`
   * for every `x == xs[i]` passing the test, where `n` items were appended before.
   */
  function Select<T, U>(xs: seq<T>, p: T -> bool, f: (T, nat, nat) -> U): (r: seq<U>)
    decreases |xs|
  {
    if xs == [] then []
    else
      var prev := Select(xs[..|xs| - 1], p, f);
      if p(xs[|xs| - 1]) then prev + [f(xs[|xs| - 1], |xs| - 1, |prev|)] else prev
  }

  lemma SelectSnoc<T, U>(xs: seq<T>, x: T, p: T -> bool, f: (T, nat, nat) -> U)
    ensures Select(xs + [x], p, f) == Select(xs, p, f) + (if p(x) then [f(x, |xs|, |Select(xs, p, f)|)] else [])
  {
    assert (xs + [x])[..|xs|] == xs;
  }

  /** The j-th selected item is `f` applied to the element at the j-th selected position. */
  lemma {:induction false} SelectAtPositions<T, U>(xs: seq<T>, p: T -> bool, f: (T, nat, nat) -> U)
    ensures |Select(xs, p, f)| == |Positions(xs, p)|
    ensures forall j :: 0 <= j < |Select(xs, p, f)| ==>
      Select(xs, p, f)[j] == f(xs[Positions(xs, p)[j]], Positions(xs, p)[j], j)
    decreases |xs|
  {
    if xs != [] {
      var init := xs[..|xs| - 1];
      SelectAtPositions(init, p, f);
      var sel, pos := Select(xs, p, f), Positions(xs, p);
      var prevSel, prevPos := Select(init, p, f), Positions(init, p);
      assert sel[..|prevSel|] == prevSel && pos[..|prevPos|] == prevPos;
      forall j | 0 <= j < |sel| ensures sel[j] == f(xs[pos[j]], pos[j], j) {
        if j < |prevSel| {
          assert sel[j] == prevSel[j] && pos[j] == prevPos[j];
          assert init[prevPos[j]] == xs[prevPos[j]];
        }
      }
    }
  }

  /** Writing the next element of `t` at index `i` extends the prefix shared with `t` by one. */
  lemma UpdateExtendsPrefix<T>(s: seq<T>, t: seq<T>, i: nat, x: T)
    requires i < |s| == |t| && s[..i] == t[..i] && x == t[i]
    ensures s[i := x][..i + 1] == t[..i + 1]
  {
    assert forall k :: 0 <= k < i ==> s[i := x][k] == s[..i][k];
  }

  /** Writing at index `i` leaves the suffix after `i` as it was. */
  lemma UpdateKeepsSuffix<T>(s: seq<T>, u: seq<T>, i: nat, x: T)
    requires i < |s| == |u| && s[i..] == u[i..]
    ensures s[i := x][i + 1..] == u[i + 1..]
  {
    assert forall k :: i + 1 <= k < |s| ==> s[k] == s[i..][k - i];
  }

  /** Concatenation is associative. */
  lemma AppendAssoc<T>(a: seq<T>, b: seq<T>, c: seq<T>)
    ensures a + (b + c) == (a + b) + c
  {
  }

  /** A prefix one longer is the shorter prefix and the next element. */
  lemma TakeSnoc<T>(xs: seq<T>, i: nat)
    requires i < |xs|
    ensures xs[..i + 1] == xs[..i] + [xs[i]]
  {
  }

  /** Every element that passes the test contributes an item, made from its own index. */
  lemma SelectComplete<T, U>(xs: seq<T>, p: T -> bool, f: (T, nat, nat) -> U, i: nat)
    requires i < |xs| && p(xs[i])
    ensures exists j :: 0 <= j < |Select(xs, p, f)| && Select(xs, p, f)[j] == f(xs[i], i, j)
  {
    SelectAtPositions(xs, p, f);
    PositionsComplete(xs, p, i);
    var j :| 0 <= j < |Positions(xs, p)| && Positions(xs, p)[j] == i;
    assert Select(xs, p, f)[j] == f(xs[i], i, j);
  }

  /** When every element is selected, the positions are 0, 1, 2, ...: each index is selected. */
  lemma {:induction false} PositionsAreAll<T>(xs: seq<T>, p: T -> bool, i: nat)
    requires |Positions(xs, p)| == |xs| && i < |xs|
    ensures p(xs[i])
    decreases |xs|
  {
    var init := xs[..|xs| - 1];
    var prev := Positions(init, p);
    if p(xs[|xs| - 1]) {
      assert |prev| == |init|;
      if i < |xs| - 1 {
        PositionsAreAll(init, p, i);
        assert init[i] == xs[i];
      }
    } else {
      assert false;
    }
  }

  /** The concatenation of `f(x)` over `xs`, in order. */
  function ConcatMap<T, U>(xs: seq<T>, f: T -> seq<U>): seq<U>
    decreases |xs|
  {
    if xs == [] then [] else ConcatMap(xs[..|xs| - 1], f) + f(xs[|xs| - 1])
  }

  /** The concatenation is empty exactly when every part is. */
  lemma {:induction false} ConcatMapEmpty<T, U>(xs: seq<T>, f: T -> seq<U>)
    ensures ConcatMap(xs, f) == [] <==> forall i :: 0 <= i < |xs| ==> f(xs[i]) == []
    decreases |xs|
  {
    if xs != [] {
      var init := xs[..|xs| - 1];
      ConcatMapEmpty(init, f);
      assert forall i :: 0 <= i < |init| ==> init[i] == xs[i];
    }
  }
}
