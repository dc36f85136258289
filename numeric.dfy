/** Small real-arithmetic helpers shared by the layout modules. */
module Numeric {

  function Abs(x: real): (r: real)
    ensures r >= 0.0 && (r == x || r == -x)
  {
    if x < 0.0 then -x else x
  }

  function Max(a: real, b: real): (r: real)
    ensures r >= a && r >= b && (r == a || r == b)
  {
    if a >= b then a else b
  }

  /** Python's `sum` over a list of floats, taken left to right. */
  function Sum(s: seq<real>): real
    decreases |s|
  {
    if s == [] then 0.0 else Sum(s[..|s| - 1]) + s[|s| - 1]
  }

  /** Adding one more entry at the end adds it to the sum. */
  lemma {:induction false} SumAppend(s: seq<real>, x: real)
    ensures Sum(s + [x]) == Sum(s) + x
  {
    assert (s + [x])[..|s + [x]| - 1] == s;
  }

  /** Scaling every entry scales the sum (used for the scaled height policy). */
  lemma {:induction false} SumScale(s: seq<real>, k: real, t: seq<real>)
    requires |t| == |s|
    requires forall i :: 0 <= i < |s| ==> t[i] == s[i] * k
    ensures Sum(t) == Sum(s) * k
  {
    if s != [] {
      var n := |s| - 1;
      SumScale(s[..n], k, t[..n]);
    }
  }
}
