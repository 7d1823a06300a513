/**
 * Screening a sequence: every item is checked by a function that returns its findings;
 * the items without findings pass, in order, and the findings of the others are
 * collected, in order. Nothing stops early.
 */
module Screening {
  import Collect

  /** The items with no findings, in input order. */
  function Passing<T, I>(xs: seq<T>, findings: T -> seq<I>): seq<T>
  {
    if xs == [] then []
    else
      var last := xs[|xs| - 1];
      Passing(xs[..|xs| - 1], findings) + (if findings(last) == [] then [last] else [])
  }

  /** Every item's findings, in input order. */
  function Findings<T, I>(xs: seq<T>, findings: T -> seq<I>): seq<I>
  {
    if xs == [] then [] else Findings(xs[..|xs| - 1], findings) + findings(xs[|xs| - 1])
  }

  /** How many items have at least one finding. */
  function FailingCount<T, I>(xs: seq<T>, findings: T -> seq<I>): nat
  {
    if xs == [] then 0
    else FailingCount(xs[..|xs| - 1], findings) + (if findings(xs[|xs| - 1]) == [] then 0 else 1)
  }

  /** Screening a sequence extended by one item. */
  lemma Snoc<T, I>(xs: seq<T>, x: T, findings: T -> seq<I>)
    ensures Passing(xs + [x], findings) == Passing(xs, findings) + (if findings(x) == [] then [x] else [])
    ensures Findings(xs + [x], findings) == Findings(xs, findings) + findings(x)
    ensures FailingCount(xs + [x], findings) == FailingCount(xs, findings) + (if findings(x) == [] then 0 else 1)
  {
    assert (xs + [x])[..|xs|] == xs;
  }

  /** Screening a concatenation is screening the parts, so input order is kept. */
  lemma {:induction false} Concat<T, I>(xs: seq<T>, ys: seq<T>, findings: T -> seq<I>)
    ensures Passing(xs + ys, findings) == Passing(xs, findings) + Passing(ys, findings)
    ensures Findings(xs + ys, findings) == Findings(xs, findings) + Findings(ys, findings)
    ensures FailingCount(xs + ys, findings) == FailingCount(xs, findings) + FailingCount(ys, findings)
  {
    if ys == [] {
      assert xs + ys == xs;
    } else {
      var init, last := ys[..|ys| - 1], ys[|ys| - 1];
      assert ys == init + [last];
      assert xs + ys == (xs + init) + [last];
      Concat(xs, init, findings);
      Snoc(xs + init, last, findings);
      Snoc(init, last, findings);
    }
  }

  /** The finding list of every item, position by position. */
  function FindingLists<T, I>(xs: seq<T>, findings: T -> seq<I>): (lists: seq<seq<I>>)
    ensures |lists| == |xs| && forall i | 0 <= i < |xs| :: lists[i] == findings(xs[i])
  {
    seq(|xs|, i requires 0 <= i < |xs| => findings(xs[i]))
  }

  /** The findings are the in-order concatenation of the items' finding lists. */
  lemma {:induction false} FindingsFlatten<T, I>(xs: seq<T>, findings: T -> seq<I>)
    ensures Findings(xs, findings) == Collect.Flatten(FindingLists(xs, findings))
  {
    if xs != [] {
      var rest := xs[1..];
      assert xs == [xs[0]] + rest;
      Concat([xs[0]], rest, findings);
      assert Findings([xs[0]], findings) == findings(xs[0]) by {
        assert [xs[0]][..0] == [];
      }
      FindingsFlatten(rest, findings);
      assert FindingLists(xs, findings)[1..] == FindingLists(rest, findings);
    }
  }

  /**
   * The passing items are picked out of the input in order: an increasing selection of
   * positions names them, and a position is selected exactly when its item has no finding.
   */
  lemma {:induction false} PassingIsSelection<T, I>(xs: seq<T>, findings: T -> seq<I>) returns (idx: seq<nat>)
    ensures var kept := Passing(xs, findings);
      && |idx| == |kept|
      && (forall k | 0 <= k < |idx| :: idx[k] < |xs| && kept[k] == xs[idx[k]])
      && (forall k, l | 0 <= k < l < |idx| :: idx[k] < idx[l])
      && (forall j | 0 <= j < |xs| :: findings(xs[j]) == [] <==> j in idx)
  {
    if xs == [] {
      idx := [];
    } else {
      var n := |xs| - 1;
      var init := xs[..n];
      var prev := PassingIsSelection(init, findings);
      assert xs == init + [xs[n]];
      Snoc(init, xs[n], findings);
      forall j | 0 <= j < n ensures xs[j] == init[j] {}
      if findings(xs[n]) == [] {
        idx := prev + [n];
      } else {
        idx := prev;
      }
    }
  }

  /**
   * Every item passes or fails, never both: the passing and failing items add up to the
   * input; with at most `bound` findings per item, each failing item contributes between
   * one and `bound` findings; nothing fails exactly when there are no findings.
   */
  lemma {:induction false} Counts<T, I>(xs: seq<T>, findings: T -> seq<I>, bound: nat)
    requires forall i | 0 <= i < |xs| :: |findings(xs[i])| <= bound
    ensures |Passing(xs, findings)| + FailingCount(xs, findings) == |xs|
    ensures FailingCount(xs, findings) <= |Findings(xs, findings)| <= bound * FailingCount(xs, findings)
    ensures Findings(xs, findings) == [] <==> Passing(xs, findings) == xs
    ensures Findings(xs, findings) == [] <==> FailingCount(xs, findings) == 0
  {
    if xs != [] {
      var n := |xs| - 1;
      var init := xs[..n];
      Counts(init, findings, bound);
      assert xs == init + [xs[n]];
      Snoc(init, xs[n], findings);
      var c := FailingCount(init, findings);
      assert bound * (c + 1) == bound * c + bound;
      if Passing(xs, findings) == xs {
        assert |Passing(init, findings)| <= n;
      }
    }
  }
}
