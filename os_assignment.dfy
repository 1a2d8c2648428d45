/**
 * Device-class (operating system) assignment: the weight table checks of
 * `createHosts` and `checkSumProb`, and the weighted picker `setOS`.
 * Weights and draws are exact reals; the random draw is an input.
 */
module OSAssignment {
  import opened Options

  /** Sum of the weights, accumulated left to right as the source's loops do. */
  function Sum(w: seq<real>): real
  {
    if w == [] then 0.0 else Sum(w[..|w| - 1]) + w[|w| - 1]
  }

  /** Weights that each lie in [0, 1] sum to a value between 0 and their count. */
  lemma {:induction false} SumBounds(w: seq<real>)
    requires forall i :: 0 <= i < |w| ==> 0.0 <= w[i] <= 1.0
    ensures 0.0 <= Sum(w) <= |w| as real
  {
    if w != [] {
      SumBounds(w[..|w| - 1]);
    }
  }

  /** Running total of the weights of categories 0..i. */
  function Cumulative(w: seq<real>, i: nat): real
    requires i < |w|
  {
    Sum(w[..i + 1])
  }

  lemma CumulativeLast(w: seq<real>)
    requires w != []
    ensures Cumulative(w, |w| - 1) == Sum(w)
  {
    assert w[..|w|] == w;
  }

  lemma SumStep(w: seq<real>, i: nat)
    requires i < |w|
    ensures Sum(w[..i + 1]) == Sum(w[..i]) + w[i]
  {
    assert w[..i + 1][..i] == w[..i];
  }

  /**
   * The category `setOS` settles on once it has passed categories 0..i-1:
   * the first category from i on whose running total reaches the draw.
   */
  function PickFrom(w: seq<real>, draw: real, i: nat): (r: nat)
    requires i < |w| && draw <= Sum(w)
    ensures i <= r < |w|
    ensures draw <= Cumulative(w, r)
    ensures forall k :: i <= k < r ==> Cumulative(w, k) < draw
    decreases |w| - i
  {
    if draw <= Cumulative(w, i) then i
    else
      CumulativeLast(w);
      PickFrom(w, draw, i + 1)
  }

  /**
   * The index `setOS` returns for a given draw: 0 when the draw is not
   * positive, otherwise the smallest index whose running total reaches it.
   * A draw above the total would make the source read past the array, so it
   * is excluded.
   */
  function Pick(w: seq<real>, draw: real): (r: nat)
    requires draw <= Sum(w)
    ensures w != [] ==> r < |w|
    ensures draw <= 0.0 ==> r == 0
    ensures 0.0 < draw ==>
      r < |w| && draw <= Cumulative(w, r) &&
      forall k :: 0 <= k < r ==> Cumulative(w, k) < draw
  {
    if draw <= 0.0 then 0 else PickFrom(w, draw, 0)
  }

  /** The two properties in Pick's contract single out its result. */
  lemma PickIsUnique(w: seq<real>, draw: real, i: nat)
    requires 0.0 < draw <= Sum(w)
    requires i < |w| && draw <= Cumulative(w, i)
    requires forall k :: 0 <= k < i ==> Cumulative(w, k) < draw
    ensures Pick(w, draw) == i
  {
  }

  /** A positive draw never selects a category of weight zero or less. */
  lemma {:induction false} PickHasPositiveWeight(w: seq<real>, draw: real)
    requires 0.0 < draw <= Sum(w)
    ensures Pick(w, draw) < |w| && w[Pick(w, draw)] > 0.0
  {
    var r := Pick(w, draw);
    SumStep(w, r);
    if r > 0 {
      assert Cumulative(w, r - 1) < draw;
      assert w[..r - 1 + 1] == w[..r];
    }
  }

  /** With a table summing to 1 and a draw in [0, 1), the index is in range. */
  lemma PickInRange(w: seq<real>, draw: real)
    requires Sum(w) == 1.0 && 0.0 <= draw < 1.0
    ensures Pick(w, draw) < |w|
  {
  }

  /**
   * `setOS`: walk the running total until it reaches the draw and return the
   * index reached, or 0 when the walk never starts.
   */
  method SetOS(w: seq<real>, draw: real) returns (idx: nat)
    requires draw <= Sum(w)
    ensures idx == Pick(w, draw)
  {
    var check := 0.0;
    var index := -1;
    while check < draw
      invariant -1 <= index < |w|
      invariant check == Sum(w[..index + 1])
      invariant 0 <= index ==> 0.0 < draw && Pick(w, draw) == PickFrom(w, draw, index)
      decreases |w| - index
    {
      CumulativeLast(w);
      SumStep(w, index + 1);
      check := check + w[index + 1];
      index := index + 1;
    }
    idx := if index == -1 then 0 else index;
  }

  /** `checkSumProb`: the table is accepted exactly when its weights sum to 1. */
  method CheckSumProb(w: seq<real>) returns (ok: bool)
    ensures ok <==> Sum(w) == 1.0
  {
    var sum := 0.0;
    for i := 0 to |w|
      invariant sum == Sum(w[..i])
    {
      SumStep(w, i);
      sum := sum + w[i];
    }
    assert w[..|w|] == w;
    ok := sum == 1.0;
  }

  predicate InUnitInterval(p: real)
  {
    0.0 <= p <= 1.0
  }

  /** Index of the first weight outside [0, 1], if any. */
  function FirstOutOfRange(w: seq<real>): (r: Option<nat>)
    ensures r.None? <==> forall i :: 0 <= i < |w| ==> InUnitInterval(w[i])
    ensures r.Some? ==>
      r.value < |w| && !InUnitInterval(w[r.value]) &&
      forall i :: 0 <= i < r.value ==> InUnitInterval(w[i])
  {
    if w == [] then None
    else
      match FirstOutOfRange(w[..|w| - 1])
      case Some(i) => Some(i)
      case None => if InUnitInterval(w[|w| - 1]) then None else Some(|w| - 1)
  }

  /** The range check of the weight-reading loop in `createHosts`. */
  method CheckWeights(w: seq<real>) returns (bad: Option<nat>)
    ensures bad == FirstOutOfRange(w)
  {
    for i := 0 to |w|
      invariant forall k :: 0 <= k < i ==> InUnitInterval(w[k])
    {
      if w[i] < 0.0 || w[i] > 1.0 {
        return Some(i);
      }
    }
    return None;
  }
}
