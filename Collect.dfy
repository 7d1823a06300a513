/**
 * Sequential accumulation with early exit, as the pipeline's loops do it:
 * map every element through a step that may raise, stop at the first error,
 * and otherwise collect the results in order.
 */
module Collect {
  import opened Wrappers

  /** Applies `f` to every element in order; the first failure aborts with its error. */
  function MapResults<A, B, E>(xs: seq<A>, f: A -> Result<B, E>): (r: Result<seq<B>, E>)
    ensures r.Success? ==> |r.value| == |xs|
  {
    if xs == [] then Success([])
    else
      match MapResults(xs[..|xs| - 1], f)
      case Failure(e) => Failure(e)
      case Success(init) =>
        match f(xs[|xs| - 1])
        case Failure(e) => Failure(e)
        case Success(y) => Success(init + [y])
  }

  /** `MapResults` succeeds exactly when every step does, and then keeps every step's result in place. */
  lemma {:induction false} MapResultsSucceeds<A, B, E>(xs: seq<A>, f: A -> Result<B, E>)
    ensures MapResults(xs, f).Success? <==> forall i | 0 <= i < |xs| :: f(xs[i]).Success?
    ensures MapResults(xs, f).Success? ==>
      forall i | 0 <= i < |xs| :: MapResults(xs, f).value[i] == f(xs[i]).value
  {
    if xs != [] {
      var init := xs[..|xs| - 1];
      MapResultsSucceeds(init, f);
      assert forall i | 0 <= i < |init| :: init[i] == xs[i];
    }
  }

  /** When the steps before `k` succeed and step `k` fails, the whole run fails with step `k`'s error. */
  lemma {:induction false} MapResultsStopsAt<A, B, E>(xs: seq<A>, f: A -> Result<B, E>, k: nat)
    requires k < |xs| && f(xs[k]).Failure?
    requires forall j | 0 <= j < k :: f(xs[j]).Success?
    ensures MapResults(xs, f) == Failure(f(xs[k]).error)
  {
    var init := xs[..|xs| - 1];
    if k == |xs| - 1 {
      MapResultsSucceeds(init, f);
    } else {
      MapResultsStopsAt(init, f, k);
    }
  }

  /** One more successful step extends a successful run by that step's result. */
  lemma MapResultsExtend<A, B, E>(xs: seq<A>, f: A -> Result<B, E>, i: nat, init: seq<B>)
    requires i < |xs| && MapResults(xs[..i], f) == Success(init) && f(xs[i]).Success?
    ensures MapResults(xs[..i + 1], f) == Success(init + [f(xs[i]).value])
  {
    assert xs[..i + 1][..i] == xs[..i];
  }

  /** A failed run reports the error of its first failing step. */
  lemma {:induction false} MapResultsFailure<A, B, E>(xs: seq<A>, f: A -> Result<B, E>)
    requires MapResults(xs, f).Failure?
    ensures exists k | 0 <= k < |xs| ::
      && f(xs[k]) == Failure(MapResults(xs, f).error)
      && forall j | 0 <= j < k :: f(xs[j]).Success?
  {
    var init := xs[..|xs| - 1];
    if MapResults(init, f).Failure? {
      MapResultsFailure(init, f);
      var k :| 0 <= k < |init| && f(init[k]) == Failure(MapResults(init, f).error)
        && forall j | 0 <= j < k :: f(init[j]).Success?;
      assert xs[k] == init[k];
    } else {
      MapResultsSucceeds(init, f);
      assert f(xs[|xs| - 1]) == Failure(MapResults(xs, f).error);
    }
  }

  /** The concatenation of a sequence of sequences, front to back. */
  function Flatten<T>(xss: seq<seq<T>>): seq<T>
  {
    if xss == [] then [] else xss[0] + Flatten(xss[1..])
  }

  /** The sum of the lengths of the parts. */
  function TotalLength<T>(xss: seq<seq<T>>): nat
  {
    if xss == [] then 0 else |xss[0]| + TotalLength(xss[1..])
  }

  lemma {:induction false} FlattenSnoc<T>(xss: seq<seq<T>>, ys: seq<T>)
    ensures Flatten(xss + [ys]) == Flatten(xss) + ys
  {
    if xss == [] {
      assert [] + [ys] == [ys];
    } else {
      assert (xss + [ys])[1..] == xss[1..] + [ys];
      FlattenSnoc(xss[1..], ys);
    }
  }

  lemma {:induction false} FlattenLength<T>(xss: seq<seq<T>>)
    ensures |Flatten(xss)| == TotalLength(xss)
  {
    if xss != [] {
      FlattenLength(xss[1..]);
    }
  }

  /** Every element of the concatenation comes from one of the parts. */
  lemma {:induction false} FlattenMember<T>(xss: seq<seq<T>>, x: T)
    requires x in Flatten(xss)
    ensures exists i | 0 <= i < |xss| :: x in xss[i]
  {
    if x !in xss[0] {
      FlattenMember(xss[1..], x);
      var i :| 0 <= i < |xss[1..]| && x in xss[1..][i];
      assert xss[i + 1] == xss[1..][i];
    }
  }

  /** Applies `f` to every element in order and concatenates the results; the first failure aborts. */
  function ConcatResults<A, B, E>(xs: seq<A>, f: A -> Result<seq<B>, E>): Result<seq<B>, E>
  {
    match MapResults(xs, f)
    case Failure(e) => Failure(e)
    case Success(parts) => Success(Flatten(parts))
  }
}
