/** The running-sum fold that every total in the store is computed with:
    `xs.reduce((sum, x) => sum + amount(x), 0)`, a left fold starting at 0. */
module Totals {

  function Sum<T>(xs: seq<T>, amount: T -> int): int
  {
    if |xs| == 0 then 0 else Sum(xs[..|xs| - 1], amount) + amount(xs[|xs| - 1])
  }

  /** Summing a concatenation is adding the sums of the parts. */
  lemma {:induction false} SumConcat<T>(xs: seq<T>, ys: seq<T>, amount: T -> int)
    ensures Sum(xs + ys, amount) == Sum(xs, amount) + Sum(ys, amount)
    decreases |ys|
  {
    if |ys| == 0 {
      assert xs + ys == xs;
    } else {
      var last := |ys| - 1;
      assert (xs + ys)[..|xs + ys| - 1] == xs + ys[..last];
      SumConcat(xs, ys[..last], amount);
    }
  }

  /** Replacing one element changes the sum by exactly the difference of the two amounts. */
  lemma {:induction false} SumUpdate<T>(xs: seq<T>, k: nat, x: T, amount: T -> int)
    requires k < |xs|
    ensures Sum(xs[k := x], amount) == Sum(xs, amount) - amount(xs[k]) + amount(x)
  {
    assert xs == xs[..k] + [xs[k]] + xs[k + 1..];
    assert xs[k := x] == xs[..k] + [x] + xs[k + 1..];
    SumConcat(xs[..k] + [xs[k]], xs[k + 1..], amount);
    SumConcat(xs[..k] + [x], xs[k + 1..], amount);
    SumConcat(xs[..k], [xs[k]], amount);
    SumConcat(xs[..k], [x], amount);
  }

  /** Deleting one element lowers the sum by exactly its amount. */
  lemma {:induction false} SumDelete<T>(xs: seq<T>, k: nat, amount: T -> int)
    requires k < |xs|
    ensures Sum(xs[..k] + xs[k + 1..], amount) == Sum(xs, amount) - amount(xs[k])
  {
    assert xs == xs[..k] + [xs[k]] + xs[k + 1..];
    SumConcat(xs[..k] + [xs[k]], xs[k + 1..], amount);
    SumConcat(xs[..k], [xs[k]], amount);
    SumConcat(xs[..k], xs[k + 1..], amount);
  }
}
