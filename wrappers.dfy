/** Undefined values, failures and small real-number helpers shared by both bots. */
module Wrappers {

  /** A value that may be undefined: pandas' NaN, or Python's None. */
  datatype Option<T> = None | Some(value: T)

  /** The Python exceptions the modelled code can raise. */
  datatype Error =
    | ZeroDivisionError  // a float divided by 0.0
    | ValueError         // round() of NaN
    | OverflowError      // round() of an infinite float
    | KeyError           // a column read from a DataFrame that does not have it
    | IndexError         // a list read past its end

  datatype Result<T> = Ok(value: T) | Err(error: Error)

  function Abs(x: real): (r: real)
    ensures r >= 0.0 && (r == x || r == -x)
  {
    if x < 0.0 then -x else x
  }

  /** Python's max() of three floats. */
  function Max3(a: real, b: real, c: real): (r: real)
    ensures r >= a && r >= b && r >= c
    ensures r == a || r == b || r == c
  {
    if a >= b && a >= c then a else if b >= c then b else c
  }

  /** Python's sum() over a list of floats, taken exactly. */
  function Sum(s: seq<real>): real
  {
    if |s| == 0 then 0.0 else s[0] + Sum(s[1..])
  }

  /** A sum of terms each at least `lo` is at least |s| * lo. */
  lemma {:induction false} SumAtLeast(s: seq<real>, lo: real)
    requires forall j :: 0 <= j < |s| ==> lo <= s[j]
    ensures |s| as real * lo <= Sum(s)
  {
    if |s| > 0 {
      SumAtLeast(s[1..], lo);
    }
  }

  /** A sum of terms each at most `hi` is at most |s| * hi. */
  lemma {:induction false} SumAtMost(s: seq<real>, hi: real)
    requires forall j :: 0 <= j < |s| ==> s[j] <= hi
    ensures Sum(s) <= |s| as real * hi
  {
    if |s| > 0 {
      SumAtMost(s[1..], hi);
    }
  }

  /** A sum of non-negative terms with one positive term is positive. */
  lemma {:induction false} SumPositive(s: seq<real>)
    requires forall j :: 0 <= j < |s| ==> s[j] > 0.0
    requires |s| > 0
    ensures Sum(s) > 0.0
  {
    if |s| > 1 {
      SumPositive(s[1..]);
    } else {
      assert Sum(s[1..]) == 0.0;
    }
  }

  lemma QuotientNonNegative(x: real, n: real)
    requires x >= 0.0 && n > 0.0
    ensures x / n >= 0.0
  {
    MeanBetween(x, n, 0.0, x / n);
  }

  /** Dividing a bounded sum by its positive term count keeps the bound. */
  lemma MeanBetween(total: real, n: real, lo: real, hi: real)
    requires n > 0.0
    requires n * lo <= total <= n * hi
    ensures lo <= total / n <= hi
  {
    assert total == (total / n) * n;
  }
}
