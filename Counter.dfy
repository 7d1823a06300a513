/**
 * `collections.Counter` over a sequence, as `dict(Counter(xs))` presents it: one entry
 * per distinct element, in order of first occurrence, with the element's count.
 */
module Counter {

  /** How often `x` occurs in `xs`. */
  function Occurrences<T(==)>(xs: seq<T>, x: T): nat
  {
    if xs == [] then 0
    else Occurrences(xs[..|xs| - 1], x) + (if xs[|xs| - 1] == x then 1 else 0)
  }

  /** The position of the first entry of `tally` whose key is `x`, or `|tally|` if none is. */
  function Find<T(==)>(tally: seq<(T, nat)>, x: T): (k: nat)
    ensures k <= |tally|
    ensures forall i | 0 <= i < k :: tally[i].0 != x
    ensures k < |tally| ==> tally[k].0 == x
  {
    if tally == [] then 0
    else if tally[0].0 == x then 0
    else 1 + Find(tally[1..], x)
  }

  /** Counting the elements one by one, as `Counter` does. */
  function Tally<T(==)>(xs: seq<T>): seq<(T, nat)>
  {
    if xs == [] then []
    else
      var t, x := Tally(xs[..|xs| - 1]), xs[|xs| - 1];
      var k := Find(t, x);
      if k < |t| then t[k := (x, t[k].1 + 1)] else t + [(x, 1)]
  }

  /** The sum of a tally's counts. */
  function Total<T>(tally: seq<(T, nat)>): nat
  {
    if tally == [] then 0 else Total(tally[..|tally| - 1]) + tally[|tally| - 1].1
  }

  /** The position of the first occurrence of `x` in `xs`, or `|xs|` if it does not occur. */
  function FirstIndex<T(==)>(xs: seq<T>, x: T): (k: nat)
    ensures k <= |xs|
    ensures forall i | 0 <= i < k :: xs[i] != x
    ensures k < |xs| ==> xs[k] == x
  {
    if xs == [] then 0
    else if xs[0] == x then 0
    else 1 + FirstIndex(xs[1..], x)
  }

  /** Raising one count by one raises the total by one. */
  lemma {:induction false} TotalBump<T>(t: seq<(T, nat)>, k: nat, e: (T, nat))
    requires k < |t| && e.1 == t[k].1 + 1
    ensures Total(t[k := e]) == Total(t) + 1
  {
    var n := |t| - 1;
    if k == n {
      assert t[k := e][..n] == t[..n];
    } else {
      assert t[k := e][..n] == t[..n][k := e];
      TotalBump(t[..n], k, e);
    }
  }

  /** The first occurrence in an extended sequence is the old one, or the new last position. */
  lemma {:induction false} FirstIndexSnoc<T>(xs: seq<T>, x: T, y: T)
    ensures FirstIndex(xs + [x], y) == if y in xs then FirstIndex(xs, y) else if x == y then |xs| else |xs| + 1
  {
    var s := xs + [x];
    if y in xs {
      var j := FirstIndex(xs, y);
      assert s[j] == y;
      assert forall i | 0 <= i < j :: s[i] == xs[i];
    } else {
      assert forall i | 0 <= i < |xs| :: s[i] == xs[i] && xs[i] in xs;
      assert s[|xs|] == x;
    }
  }

  /** Counting one more element. */
  lemma {:induction false} TallySnoc<T>(init: seq<T>, x: T)
    ensures var t := Tally(init);
      var k := Find(t, x);
      Tally(init + [x]) == if k < |t| then t[k := (x, t[k].1 + 1)] else t + [(x, 1)]
  {
    assert (init + [x])[..|init|] == init;
    assert (init + [x])[|init|] == x;
  }

  lemma {:induction false} OccurrencesSnoc<T>(init: seq<T>, x: T, y: T)
    ensures Occurrences(init + [x], y) == Occurrences(init, y) + (if x == y then 1 else 0)
  {
    assert (init + [x])[..|init|] == init;
  }

  lemma {:induction false} OccurrencesAbsent<T>(xs: seq<T>, y: T)
    requires y !in xs
    ensures Occurrences(xs, y) == 0
  {
    if xs != [] {
      OccurrencesAbsent(xs[..|xs| - 1], y);
    }
  }

  /** Every tallied key occurs in the input. */
  lemma {:induction false} TallyKeysOccur<T>(xs: seq<T>)
    ensures forall i | 0 <= i < |Tally(xs)| :: Tally(xs)[i].0 in xs
  {
    if xs != [] {
      var n := |xs| - 1;
      var init, x := xs[..n], xs[n];
      assert xs == init + [x];
      TallyKeysOccur(init);
      TallySnoc(init, x);
      var t0, t := Tally(init), Tally(xs);
      var k := Find(t0, x);
      assert forall i | 0 <= i < |init| :: init[i] in xs by {
        forall i | 0 <= i < |init| ensures init[i] in xs { assert xs[i] == init[i]; }
      }
      assert x in xs by { assert xs[n] == x; }
      forall i | 0 <= i < |t| ensures t[i].0 in xs {
        if i < |t0| && i != k { assert t[i] == t0[i]; }
      }
    }
  }

  /** Every element of the input is tallied. */
  lemma {:induction false} TallyCovers<T>(xs: seq<T>)
    ensures forall y | y in xs :: Find(Tally(xs), y) < |Tally(xs)|
  {
    if xs != [] {
      var n := |xs| - 1;
      var init, x := xs[..n], xs[n];
      assert xs == init + [x];
      TallyCovers(init);
      TallySnoc(init, x);
      var t0, t := Tally(init), Tally(xs);
      var k := Find(t0, x);
      forall y | y in xs ensures Find(t, y) < |t| {
        if y == x {
          if k < |t0| { assert t[k].0 == x; } else { assert t[|t0|].0 == x; }
        } else {
          assert y in init;
          assert t[Find(t0, y)].0 == y;
        }
      }
    }
  }

  /** No key is tallied twice. */
  lemma {:induction false} TallyDistinct<T>(xs: seq<T>)
    ensures forall i, j | 0 <= i < j < |Tally(xs)| :: Tally(xs)[i].0 != Tally(xs)[j].0
  {
    if xs != [] {
      var n := |xs| - 1;
      var init, x := xs[..n], xs[n];
      assert xs == init + [x];
      TallyDistinct(init);
      TallySnoc(init, x);
    }
  }

  /** Every key's count is its number of occurrences. */
  lemma {:induction false} TallyCounts<T>(xs: seq<T>)
    ensures forall i | 0 <= i < |Tally(xs)| :: Tally(xs)[i].1 == Occurrences(xs, Tally(xs)[i].0)
  {
    if xs != [] {
      var n := |xs| - 1;
      var init, x := xs[..n], xs[n];
      assert xs == init + [x];
      TallyCounts(init);
      TallyDistinct(init);
      TallyCovers(init);
      TallySnoc(init, x);
      var t0, t := Tally(init), Tally(xs);
      forall i | 0 <= i < |t| ensures t[i].1 == Occurrences(xs, t[i].0) {
        OccurrencesSnoc(init, x, t[i].0);
        if Find(t0, x) == |t0| && i == |t0| {
          OccurrencesAbsent(init, x);
        }
      }
    }
  }

  /** Keys come in order of first occurrence. */
  lemma {:induction false} TallyOrder<T>(xs: seq<T>)
    ensures forall i, j | 0 <= i < j < |Tally(xs)| ::
      FirstIndex(xs, Tally(xs)[i].0) < FirstIndex(xs, Tally(xs)[j].0)
  {
    if xs != [] {
      var n := |xs| - 1;
      var init, x := xs[..n], xs[n];
      assert xs == init + [x];
      TallyOrder(init);
      TallyKeysOccur(init);
      TallySnoc(init, x);
      var t0, t := Tally(init), Tally(xs);
      var k := Find(t0, x);
      forall i | 0 <= i < |t0|
        ensures t[i].0 == t0[i].0 && FirstIndex(xs, t[i].0) == FirstIndex(init, t0[i].0) < n
      {
        FirstIndexSnoc(init, x, t0[i].0);
      }
      if k == |t0| {
        TallyCovers(init);
        FirstIndexSnoc(init, x, x);
        assert FirstIndex(xs, t[|t0|].0) == n;
      }
    }
  }

  /** The counts add up to the input's length. */
  lemma {:induction false} TallyTotal<T>(xs: seq<T>)
    ensures Total(Tally(xs)) == |xs|
  {
    if xs != [] {
      var n := |xs| - 1;
      var init, x := xs[..n], xs[n];
      assert xs == init + [x];
      TallyTotal(init);
      TallySnoc(init, x);
      var t0 := Tally(init);
      var k := Find(t0, x);
      if k < |t0| {
        TotalBump(t0, k, (x, t0[k].1 + 1));
      } else {
        assert (t0 + [(x, 1)])[..|t0|] == t0;
      }
    }
  }

  /**
   * What `Counter` promises: every entry's key occurs in the input and is counted exactly;
   * every element of the input has an entry; no key appears twice; keys come in order of
   * first occurrence; and the counts add up to the input's length.
   */
  lemma TallySpec<T>(xs: seq<T>)
    ensures var t := Tally(xs);
      && (forall i | 0 <= i < |t| :: t[i].0 in xs && t[i].1 == Occurrences(xs, t[i].0))
      && (forall x | x in xs :: Find(t, x) < |t|)
      && (forall i, j | 0 <= i < j < |t| :: t[i].0 != t[j].0)
      && (forall i, j | 0 <= i < j < |t| :: FirstIndex(xs, t[i].0) < FirstIndex(xs, t[j].0))
      && Total(t) == |xs|
  {
    TallyKeysOccur(xs);
    TallyCovers(xs);
    TallyDistinct(xs);
    TallyCounts(xs);
    TallyOrder(xs);
    TallyTotal(xs);
  }
}
