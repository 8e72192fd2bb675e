/**
 * The expectancy computed at the end of `backtest` in EURUSDBot2.py from the
 * `trades` list: win rate, average win, average loss and expectancy.
 */
module Expectancy {
  import opened Wrappers

  /** One closed trade of the backtest: {"entry", "exit", "profit"}. */
  datatype Trade = Trade(entry: real, exit: real, profit: real)

  datatype Stats = Stats(winRate: real, avgWin: real, avgLoss: real, expectancy: real)

  /** The `profit` column. */
  function Profits(trades: seq<Trade>): (ps: seq<real>)
    ensures |ps| == |trades|
  {
    seq(|trades|, i requires 0 <= i < |trades| => trades[i].profit)
  }

  /** `df[df['profit'] > 0]['profit']`, in order. */
  function Wins(ps: seq<real>): seq<real>
  {
    if |ps| == 0 then [] else (if ps[0] > 0.0 then [ps[0]] else []) + Wins(ps[1..])
  }

  /** `df[df['profit'] < 0]['profit']`, in order. */
  function Losses(ps: seq<real>): seq<real>
  {
    if |ps| == 0 then [] else (if ps[0] < 0.0 then [ps[0]] else []) + Losses(ps[1..])
  }

  /** `.mean() if len(...) > 0 else 0`. */
  function MeanOrZero(s: seq<real>): real
  {
    if |s| == 0 then 0.0 else Sum(s) / |s| as real
  }

  /**
   * The statistics of a non-empty trade list. An empty list has no `profit`
   * column, so the average-win line raises KeyError.
   */
  function ComputeExpectancy(trades: seq<Trade>): (r: Result<Stats>)
    ensures r.Err? <==> |trades| == 0
    ensures r.Err? ==> r.error == KeyError
    ensures r.Ok? ==> 0.0 <= r.value.winRate <= 1.0
    ensures r.Ok? ==> (r.value.avgWin > 0.0 <==> exists j :: 0 <= j < |trades| && trades[j].profit > 0.0)
    ensures r.Ok? ==> (r.value.avgLoss < 0.0 <==> exists j :: 0 <= j < |trades| && trades[j].profit < 0.0)
    ensures r.Ok? ==> r.value.avgWin >= 0.0 && r.value.avgLoss <= 0.0
  {
    if |trades| == 0 then Err(KeyError)
    else
      var ps := Profits(trades);
      var winRate := WinRate(ps);
      var avgWin := MeanOrZero(Wins(ps));
      var avgLoss := MeanOrZero(Losses(ps));
      PartitionFacts(ps);
      SomeWin(trades);
      SomeLoss(trades);
      Ok(Stats(winRate, avgWin, avgLoss, ExpectancyOf(winRate, avgWin, avgLoss)))
  }

  /** `len(wins) / len(df)`. */
  function WinRate(ps: seq<real>): real
    requires |ps| > 0
  {
    |Wins(ps)| as real / |ps| as real
  }

  /** `win_rate * avg_win - (1 - win_rate) * abs(avg_loss)`. */
  function ExpectancyOf(winRate: real, avgWin: real, avgLoss: real): real
  {
    winRate * avgWin - (1.0 - winRate) * Abs(avgLoss)
  }

  /** What ComputeExpectancy's contract needs about the two partitions. */
  lemma PartitionFacts(ps: seq<real>)
    requires |ps| > 0
    ensures 0.0 <= WinRate(ps) <= 1.0
    ensures MeanOrZero(Wins(ps)) > 0.0 <==> |Wins(ps)| > 0
    ensures MeanOrZero(Losses(ps)) < 0.0 <==> |Losses(ps)| > 0
    ensures MeanOrZero(Wins(ps)) >= 0.0 && MeanOrZero(Losses(ps)) <= 0.0
  {
    WinsAreWins(ps);
    MeanBetween(|Wins(ps)| as real, |ps| as real, 0.0, 1.0);
    AverageWinSign(ps);
    AverageLossSign(ps);
  }

  lemma AverageWinSign(ps: seq<real>)
    ensures MeanOrZero(Wins(ps)) > 0.0 <==> |Wins(ps)| > 0
    ensures MeanOrZero(Wins(ps)) >= 0.0
  {
    var w := Wins(ps);
    if |w| > 0 {
      WinsAreWins(ps);
      SumPositive(w);
      MeanBetween(Sum(w), |w| as real, Sum(w) / |w| as real, Sum(w) / |w| as real);
      assert Sum(w) / |w| as real > 0.0;
    }
  }

  lemma AverageLossSign(ps: seq<real>)
    ensures MeanOrZero(Losses(ps)) < 0.0 <==> |Losses(ps)| > 0
    ensures MeanOrZero(Losses(ps)) <= 0.0
  {
    var l := Losses(ps);
    if |l| > 0 {
      LossesAreLosses(ps);
      var negated := seq(|l|, j requires 0 <= j < |l| => -l[j]);
      SumPositive(negated);
      SumNegated(l, negated);
      assert Sum(l) < 0.0;
      assert Sum(l) / |l| as real < 0.0;
    }
  }

  /**
   * The wins are exactly the positive profits: no more of them than trades,
   * each > 0, and every positive profit is among them.
   */
  lemma {:induction false} WinsAreWins(ps: seq<real>)
    ensures |Wins(ps)| <= |ps|
    ensures forall j :: 0 <= j < |Wins(ps)| ==> Wins(ps)[j] > 0.0
    ensures forall x :: x in Wins(ps) <==> x in ps && x > 0.0
  {
    if |ps| > 0 {
      WinsAreWins(ps[1..]);
      assert ps == [ps[0]] + ps[1..];
    }
  }

  /**
   * The losses are exactly the negative profits: no more of them than trades,
   * each < 0, and every negative profit is among them.
   */
  lemma {:induction false} LossesAreLosses(ps: seq<real>)
    ensures |Losses(ps)| <= |ps|
    ensures forall j :: 0 <= j < |Losses(ps)| ==> Losses(ps)[j] < 0.0
    ensures forall x :: x in Losses(ps) <==> x in ps && x < 0.0
  {
    if |ps| > 0 {
      LossesAreLosses(ps[1..]);
      assert ps == [ps[0]] + ps[1..];
    }
  }

  /** Some trade won exactly when the win list is non-empty. */
  lemma SomeWin(trades: seq<Trade>)
    ensures |Wins(Profits(trades))| > 0 <==> exists j :: 0 <= j < |trades| && trades[j].profit > 0.0
  {
    var ps := Profits(trades);
    WinsAreWins(ps);
    if |Wins(ps)| > 0 {
      assert Wins(ps)[0] in Wins(ps);
      var j :| 0 <= j < |ps| && ps[j] == Wins(ps)[0];
      assert trades[j].profit > 0.0;
    }
    if j :| 0 <= j < |trades| && trades[j].profit > 0.0 {
      assert ps[j] in Wins(ps);
    }
  }

  /** Some trade lost exactly when the loss list is non-empty. */
  lemma SomeLoss(trades: seq<Trade>)
    ensures |Losses(Profits(trades))| > 0 <==> exists j :: 0 <= j < |trades| && trades[j].profit < 0.0
  {
    var ps := Profits(trades);
    LossesAreLosses(ps);
    if |Losses(ps)| > 0 {
      assert Losses(ps)[0] in Losses(ps);
      var j :| 0 <= j < |ps| && ps[j] == Losses(ps)[0];
      assert trades[j].profit < 0.0;
    }
    if j :| 0 <= j < |trades| && trades[j].profit < 0.0 {
      assert ps[j] in Losses(ps);
    }
  }

  lemma {:induction false} SumNegated(s: seq<real>, negated: seq<real>)
    requires |negated| == |s| && forall j :: 0 <= j < |s| ==> negated[j] == -s[j]
    ensures Sum(negated) == -Sum(s)
  {
    if |s| > 0 {
      SumNegated(s[1..], negated[1..]);
    }
  }

  /** Keeping the wins distributes over concatenation. */
  lemma {:induction false} WinsOfAppend(a: seq<real>, b: seq<real>)
    ensures Wins(a + b) == Wins(a) + Wins(b)
  {
    if |a| == 0 {
      assert a + b == b;
    } else {
      var head := if a[0] > 0.0 then [a[0]] else [];
      assert (a + b)[0] == a[0];
      assert (a + b)[1..] == a[1..] + b;
      WinsOfAppend(a[1..], b);
      assert Wins(a + b) == head + Wins(a[1..] + b);
      assert Wins(a) == head + Wins(a[1..]);
    }
  }

  /** Keeping the losses distributes over concatenation. */
  lemma {:induction false} LossesOfAppend(a: seq<real>, b: seq<real>)
    ensures Losses(a + b) == Losses(a) + Losses(b)
  {
    if |a| == 0 {
      assert a + b == b;
    } else {
      var head := if a[0] < 0.0 then [a[0]] else [];
      assert (a + b)[0] == a[0];
      assert (a + b)[1..] == a[1..] + b;
      LossesOfAppend(a[1..], b);
      assert Losses(a + b) == head + Losses(a[1..] + b);
      assert Losses(a) == head + Losses(a[1..]);
    }
  }

  /** Appending a zero-profit trade leaves both partitions as they were. */
  lemma ZeroProfitKeepsPartitions(trades: seq<Trade>, t: Trade)
    requires t.profit == 0.0
    ensures Wins(Profits(trades + [t])) == Wins(Profits(trades))
    ensures Losses(Profits(trades + [t])) == Losses(Profits(trades))
  {
    var ps := Profits(trades);
    assert Profits(trades + [t]) == ps + [0.0];
    WinsOfAppend(ps, [0.0]);
    LossesOfAppend(ps, [0.0]);
    assert [0.0][1..] == [];
    assert Wins([0.0]) == [] && Losses([0.0]) == [];
    assert ps + [] == ps;
  }

  /** Rates w / (n + 1) and w / n over the same w, scaled back by their denominators, agree. */
  lemma DilutedRate(w: real, n: real, after: real, before: real)
    requires n > 0.0 && after == w / (n + 1.0) && before == w / n
    ensures after * (n + 1.0) == before * n
  {
  }

  /**
   * A trade with zero profit is neither a win nor a loss: it leaves the
   * average win and the average loss unchanged.
   */
  lemma ZeroProfitKeepsAverages(trades: seq<Trade>, t: Trade)
    requires |trades| > 0 && t.profit == 0.0
    ensures var before, after := ComputeExpectancy(trades), ComputeExpectancy(trades + [t]);
            && after.Ok? && before.Ok?
            && after.value.avgWin == before.value.avgWin
            && after.value.avgLoss == before.value.avgLoss
  {
    ZeroProfitKeepsPartitions(trades, t);
  }

  /**
   * A trade with zero profit still counts in the win-rate denominator: the
   * number of wins, win rate times trade count, stays the same.
   */
  lemma ZeroProfitDilutesWinRate(trades: seq<Trade>, t: Trade)
    requires |trades| > 0 && t.profit == 0.0
    ensures var before, after := ComputeExpectancy(trades), ComputeExpectancy(trades + [t]);
            && after.Ok? && before.Ok?
            && after.value.winRate * (|trades| + 1) as real == before.value.winRate * |trades| as real
  {
    ZeroProfitKeepsPartitions(trades, t);
    var w := |Wins(Profits(trades))| as real;
    var n := |trades| as real;
    DilutedRate(w, n, WinRate(Profits(trades + [t])), WinRate(Profits(trades)));
  }

  /** With winners and no losers the expectancy is positive. */
  lemma NoLossesPositiveExpectancy(trades: seq<Trade>)
    requires |Wins(Profits(trades))| > 0 && |Losses(Profits(trades))| == 0
    ensures ComputeExpectancy(trades).Ok? && ComputeExpectancy(trades).value.expectancy > 0.0
  {
    var ps := Profits(trades);
    WinsAreWins(ps);
    AverageWinSign(ps);
    PositiveRate(|Wins(ps)| as real, |ps| as real);
    PositiveWithoutLosses(WinRate(ps), MeanOrZero(Wins(ps)));
  }

  lemma PositiveRate(w: real, n: real)
    requires w > 0.0 && n > 0.0
    ensures w / n > 0.0
  {
  }

  lemma PositiveWithoutLosses(winRate: real, avgWin: real)
    requires winRate > 0.0 && avgWin > 0.0
    ensures ExpectancyOf(winRate, avgWin, 0.0) > 0.0
  {
  }

  /** Profits [10, 10, -5]: win rate 2/3, average win 10, average loss -5, expectancy 5. */
  lemma ExpectancyExample()
    ensures ComputeExpectancy([Trade(1.0, 11.0, 10.0), Trade(1.0, 11.0, 10.0), Trade(6.0, 1.0, -5.0)])
         == Ok(Stats(2.0 / 3.0, 10.0, -5.0, 5.0))
  {
    var trades := [Trade(1.0, 11.0, 10.0), Trade(1.0, 11.0, 10.0), Trade(6.0, 1.0, -5.0)];
    var ps := Profits(trades);
    assert ps == [10.0, 10.0, -5.0];
    assert [-5.0][1..] == [];
    assert Wins([-5.0]) == [] && Losses([-5.0]) == [-5.0];
    assert [10.0, -5.0][1..] == [-5.0];
    assert Wins([10.0, -5.0]) == [10.0] && Losses([10.0, -5.0]) == [-5.0];
    assert ps[1..] == [10.0, -5.0];
    assert Wins(ps) == [10.0, 10.0];
    assert Losses(ps) == [-5.0];
    assert Sum([10.0, 10.0]) == 20.0;
    assert Sum([-5.0]) == -5.0;
  }
}
