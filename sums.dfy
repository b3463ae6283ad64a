/** Sums over a list of records, as the pages compute their totals with
    `reduce((sum, x) => sum + x.amount, 0)`. */
module Sums {
  /** The sum of `f` over the elements of `s`. */
  function Sum<T>(s: seq<T>, f: T -> real): (t: real)
    ensures (forall i :: 0 <= i < |s| ==> f(s[i]) >= 0.0) ==> t >= 0.0
  {
    if s == [] then 0.0 else f(s[0]) + Sum(s[1..], f)
  }

  /** `Sum` agrees with a left-to-right `reduce`: appending an element adds its value. */
  lemma {:induction false} SumAppend<T>(s: seq<T>, x: T, f: T -> real)
    ensures Sum(s + [x], f) == Sum(s, f) + f(x)
  {
    if s != [] {
      assert (s + [x])[1..] == s[1..] + [x];
      SumAppend(s[1..], x, f);
    }
  }
}
