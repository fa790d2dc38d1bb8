/** Datatypes and numeric helpers shared by the frontend and the backend models. */
module Common {

  datatype Option<T> = None | Some(value: T)

  datatype Result<T, E> = Ok(value: T) | Err(error: E)

  /**
   * Rounding to 4 decimals, as `parseFloat(x.toFixed(4))` in the frontend and `round(x, 4)`
   * in the backend do it, taken on exact reals: the nearest multiple of 1/10000, halves up.
   * It is off by at most half a unit in the fourth decimal place. The lemmas below rely only on the error bound, monotonicity and the fact that values
   * already on the 1/10000 grid are left alone, which both source roundings also have.
   */
  function Round4(x: real): (y: real)
    ensures -0.00005 <= y - x <= 0.00005
  {
    ((x * 10000.0 + 0.5).Floor as real) / 10000.0
  }

  lemma Round4Monotone(x: real, y: real)
    requires x <= y
    ensures Round4(x) <= Round4(y)
  {
    assert (x * 10000.0 + 0.5).Floor <= (y * 10000.0 + 0.5).Floor;
  }

  /** A value with at most four decimals is its own rounding. */
  lemma Round4OnGrid(k: int)
    ensures Round4(k as real / 10000.0) == k as real / 10000.0
  {
    var x := k as real / 10000.0;
    assert x * 10000.0 + 0.5 == k as real + 0.5;
    assert (k as real + 0.5).Floor == k;
  }

  lemma Round4NonNegative(x: real)
    requires 0.0 <= x
    ensures 0.0 <= Round4(x)
  {
    Round4Monotone(0.0, x);
    Round4OnGrid(0);
  }

  /** A rounding never leaves a closed interval whose ends lie on the 1/10000 grid. */
  lemma Round4Between(x: real, lo: int, hi: int)
    requires lo as real / 10000.0 <= x <= hi as real / 10000.0
    ensures lo as real / 10000.0 <= Round4(x) <= hi as real / 10000.0
  {
    Round4Monotone(lo as real / 10000.0, x);
    Round4Monotone(x, hi as real / 10000.0);
    Round4OnGrid(lo);
    Round4OnGrid(hi);
  }

  /** No element occurs twice. */
  predicate Distinct<T(==)>(s: seq<T>)
  {
    forall i, j :: 0 <= i < j < |s| ==> s[i] != s[j]
  }

  /** Left-to-right sum, as `xs.reduce((a, b) => a + b, 0)`. */
  function Sum(xs: seq<real>): real
  {
    if |xs| == 0 then 0.0 else Sum(xs[..|xs| - 1]) + xs[|xs| - 1]
  }

  /** Every element of a sequence of non-negative values is at most the sum. */
  lemma {:induction false} SumBoundsElements(xs: seq<real>, i: nat)
    requires forall k :: 0 <= k < |xs| ==> 0.0 <= xs[k]
    requires i < |xs|
    ensures 0.0 <= xs[i] <= Sum(xs)
  {
    if i < |xs| - 1 {
      SumBoundsElements(xs[..|xs| - 1], i);
    } else {
      SumNonNegative(xs[..|xs| - 1]);
    }
  }

  lemma {:induction false} SumNonNegative(xs: seq<real>)
    requires forall k :: 0 <= k < |xs| ==> 0.0 <= xs[k]
    ensures 0.0 <= Sum(xs)
  {
    if |xs| > 0 {
      SumNonNegative(xs[..|xs| - 1]);
    }
  }
}
