/** Finite sums over a sequence of index values, standing for the generator sums of the formulation. */
module Sums {

  /** The sum of f over the elements of xs, in order. */
  function Sum<T>(xs: seq<T>, f: T -> real): real
    decreases |xs|
  {
    if |xs| == 0 then 0.0 else f(xs[0]) + Sum(xs[1..], f)
  }

  /** A sum of non-negative terms is non-negative. */
  lemma {:induction false} SumNonNegative<T>(xs: seq<T>, f: T -> real)
    requires forall x | x in xs :: f(x) >= 0.0
    ensures Sum(xs, f) >= 0.0
    decreases |xs|
  {
    if |xs| > 0 {
      SumNonNegative(xs[1..], f);
    }
  }

  /** Sums are monotone in their terms. */
  lemma {:induction false} SumMonotone<T>(xs: seq<T>, f: T -> real, g: T -> real)
    requires forall x | x in xs :: f(x) <= g(x)
    ensures Sum(xs, f) <= Sum(xs, g)
    decreases |xs|
  {
    if |xs| > 0 {
      SumMonotone(xs[1..], f, g);
    }
  }

  /** A sum whose terms all vanish is zero. */
  lemma {:induction false} SumZero<T>(xs: seq<T>, f: T -> real)
    requires forall x | x in xs :: f(x) == 0.0
    ensures Sum(xs, f) == 0.0
    decreases |xs|
  {
    if |xs| > 0 {
      SumZero(xs[1..], f);
    }
  }

  /** Sums of terms that agree on xs are equal. */
  lemma {:induction false} SumCongruent<T>(xs: seq<T>, f: T -> real, g: T -> real)
    requires forall x | x in xs :: f(x) == g(x)
    ensures Sum(xs, f) == Sum(xs, g)
    decreases |xs|
  {
    if |xs| > 0 {
      SumCongruent(xs[1..], f, g);
    }
  }
}
