/**
 * pandas' `Series.rolling(window=w).mean()` with its default `min_periods = w`:
 * entry i is the mean of the trailing window ending at i, and undefined (NaN)
 * while the window is not yet full or holds an undefined value.
 */
module Rolling {
  import opened Wrappers

  /** A series without undefined values, seen as a pandas column. */
  function Lift(xs: seq<real>): (r: seq<Option<real>>)
    ensures |r| == |xs|
  {
    seq(|xs|, j requires 0 <= j < |xs| => Some(xs[j]))
  }

  predicate AllDefined(s: seq<Option<real>>)
  {
    forall j :: 0 <= j < |s| ==> s[j].Some?
  }

  function Values(s: seq<Option<real>>): (v: seq<real>)
    requires AllDefined(s)
    ensures |v| == |s|
  {
    seq(|s|, j requires 0 <= j < |s| => s[j].value)
  }

  /** Entry i of the rolling mean. */
  function MeanAt(xs: seq<Option<real>>, w: nat, i: nat): Option<real>
    requires w >= 1 && i < |xs|
  {
    if i + 1 < w then None
    else
      var window := xs[i + 1 - w .. i + 1];
      if AllDefined(window) then Some(Sum(Values(window)) / w as real) else None
  }

  function RollingMean(xs: seq<Option<real>>, w: nat): (r: seq<Option<real>>)
    requires w >= 1
    ensures |r| == |xs|
  {
    seq(|xs|, i requires 0 <= i < |xs| => MeanAt(xs, w, i))
  }

  /** The rolling mean of a column without NaN. */
  function Sma(xs: seq<real>, w: nat): (r: seq<Option<real>>)
    requires w >= 1
    ensures |r| == |xs|
  {
    RollingMean(Lift(xs), w)
  }

  /**
   * On a column without NaN the rolling mean is undefined exactly for the
   * first w - 1 entries and is the arithmetic mean of the trailing window
   * everywhere else.
   */
  lemma SmaIsTrailingMean(xs: seq<real>, w: nat, i: nat)
    requires w >= 1 && i < |xs|
    ensures Sma(xs, w)[i] == if i + 1 < w then None else Some(Sum(xs[i + 1 - w .. i + 1]) / w as real)
  {
    if i + 1 >= w {
      var window := Lift(xs)[i + 1 - w .. i + 1];
      assert AllDefined(window);
      assert Values(window) == xs[i + 1 - w .. i + 1];
    }
  }

  /** Every defined rolling mean of values at least `lo` is at least `lo`. */
  lemma RollingMeanAtLeast(xs: seq<Option<real>>, w: nat, lo: real, i: nat)
    requires w >= 1 && i < |xs|
    requires forall j :: 0 <= j < |xs| && xs[j].Some? ==> lo <= xs[j].value
    requires RollingMean(xs, w)[i].Some?
    ensures lo <= RollingMean(xs, w)[i].value
  {
    var window := xs[i + 1 - w .. i + 1];
    var v := Values(window);
    assert forall j :: 0 <= j < |v| ==> v[j] == xs[i + 1 - w + j].value;
    SumAtLeast(v, lo);
    MeanBetween(Sum(v), w as real, lo, Sum(v) / w as real);
  }

  /** Every defined rolling mean of values at most `hi` is at most `hi`. */
  lemma RollingMeanAtMost(xs: seq<Option<real>>, w: nat, hi: real, i: nat)
    requires w >= 1 && i < |xs|
    requires forall j :: 0 <= j < |xs| && xs[j].Some? ==> xs[j].value <= hi
    requires RollingMean(xs, w)[i].Some?
    ensures RollingMean(xs, w)[i].value <= hi
  {
    var window := xs[i + 1 - w .. i + 1];
    var v := Values(window);
    assert forall j :: 0 <= j < |v| ==> v[j] == xs[i + 1 - w + j].value;
    SumAtMost(v, hi);
    MeanBetween(Sum(v), w as real, Sum(v) / w as real, hi);
  }

  /** No lookahead: the rolling mean of a prefix is the prefix of the rolling mean. */
  lemma RollingMeanOfPrefix(xs: seq<Option<real>>, w: nat, k: nat)
    requires w >= 1 && k <= |xs|
    ensures RollingMean(xs[..k], w) == RollingMean(xs, w)[..k]
  {
    forall i | 0 <= i < k
      ensures RollingMean(xs[..k], w)[i] == RollingMean(xs, w)[i]
    {
      if i + 1 >= w {
        assert xs[..k][i + 1 - w .. i + 1] == xs[i + 1 - w .. i + 1];
      }
    }
  }

  lemma LiftOfPrefix(xs: seq<real>, k: nat)
    requires k <= |xs|
    ensures Lift(xs[..k]) == Lift(xs)[..k]
  {
  }
}
