/** Summary statistics of a finished backtest, computed once from the closed
    trades and the initial and final balances, then cached on the results. */
module Stats {
  import opened Prelude
  import opened Accounts

  /** Durations are whole time units (nanoseconds in the source). */
  datatype Statistics = Statistics(
    totalTrades: int, winningTrades: int, losingTrades: int, winRate: real,
    totalPnL: real, totalPnLPercent: real, grossProfit: real, grossLoss: real, profitFactor: real,
    avgWin: real, avgLoss: real, expectedValue: real,
    maxDrawdown: real, maxDrawdownPercent: real,
    avgTradeDuration: int)

  /** The statistics of no trades: everything zero. */
  const ZeroStatistics: Statistics :=
    Statistics(0, 0, 0, 0.0, 0.0, 0.0, 0.0, 0.0, 0.0, 0.0, 0.0, 0.0, 0.0, 0.0, 0)

  // ---------------------------------------------------------------------------
  // Specification: folds over the trade list, left to right

  function WinCount(ts: seq<Trade>): nat
  {
    if |ts| == 0 then 0 else WinCount(ts[..|ts| - 1]) + (if ts[|ts| - 1].pnl > 0.0 then 1 else 0)
  }

  function LossCount(ts: seq<Trade>): nat
  {
    if |ts| == 0 then 0 else LossCount(ts[..|ts| - 1]) + (if ts[|ts| - 1].pnl < 0.0 then 1 else 0)
  }

  /** Sum of the winning trades' PnL. */
  function GrossProfit(ts: seq<Trade>): real
  {
    if |ts| == 0 then 0.0
    else GrossProfit(ts[..|ts| - 1]) + (if ts[|ts| - 1].pnl > 0.0 then ts[|ts| - 1].pnl else 0.0)
  }

  /** Sum of the losing trades' PnL (a non-positive number). */
  function GrossLoss(ts: seq<Trade>): real
  {
    if |ts| == 0 then 0.0
    else GrossLoss(ts[..|ts| - 1]) + (if ts[|ts| - 1].pnl < 0.0 then ts[|ts| - 1].pnl else 0.0)
  }

  /** The balance after the trades of ts have been applied in order. */
  function Running(initial: real, ts: seq<Trade>): real
  {
    initial + SumPnL(ts)
  }

  /** The highest balance seen, the initial one included. */
  function Peak(initial: real, ts: seq<Trade>): real
  {
    if |ts| == 0 then initial else Max(Peak(initial, ts[..|ts| - 1]), Running(initial, ts))
  }

  /** The largest fall from the peak so far to the balance after some trade. */
  function MaxDrawdown(initial: real, ts: seq<Trade>): (dd: real)
    ensures dd >= 0.0
  {
    if |ts| == 0 then 0.0
    else Max(MaxDrawdown(initial, ts[..|ts| - 1]), Peak(initial, ts) - Running(initial, ts))
  }

  function TotalDuration(ts: seq<Trade>): int
  {
    if |ts| == 0 then 0
    else TotalDuration(ts[..|ts| - 1]) + (ts[|ts| - 1].exitTime - ts[|ts| - 1].entryTime)
  }

  /** The statistics of a run. A zero initial balance gives a zero PnL percentage
      (the source divides by zero there). */
  function StatsOf(initial: real, final: real, ts: seq<Trade>): (st: Statistics)
    ensures st.totalTrades == |ts|
    ensures |ts| == 0 ==> st == ZeroStatistics
    ensures |ts| > 0 ==>
              st.winningTrades == WinCount(ts) && st.losingTrades == LossCount(ts) &&
              st.grossProfit == GrossProfit(ts) && st.grossLoss == GrossLoss(ts) &&
              st.totalPnL == final - initial && st.maxDrawdown == MaxDrawdown(initial, ts)
    ensures |ts| > 0 ==> st.expectedValue * |ts| as real == final - initial
    ensures |ts| > 0 ==> st.winRate * |ts| as real == WinCount(ts) as real * 100.0
    ensures |ts| > 0 && initial != 0.0 ==> st.totalPnLPercent * initial == (final - initial) * 100.0
    ensures |ts| > 0 ==> st.avgTradeDuration == TruncDiv(TotalDuration(ts), |ts|)
  {
    if |ts| == 0 then ZeroStatistics
    else
      var n := |ts|;
      var wins, losses := WinCount(ts), LossCount(ts);
      var totalWin, totalLoss := GrossProfit(ts), GrossLoss(ts);
      var peak, maxDD := Peak(initial, ts), MaxDrawdown(initial, ts);
      var totalPnL := final - initial;
      Statistics(
        n, wins, losses, wins as real / n as real * 100.0,
        totalPnL, if initial == 0.0 then 0.0 else totalPnL / initial * 100.0,
        totalWin, totalLoss, if totalLoss != 0.0 then totalWin / -totalLoss else 0.0,
        if wins > 0 then totalWin / wins as real else 0.0,
        if losses > 0 then totalLoss / losses as real else 0.0,
        totalPnL / n as real,
        maxDD, if peak > 0.0 then maxDD / peak * 100.0 else 0.0,
        TruncDiv(TotalDuration(ts), n))
  }

  // ---------------------------------------------------------------------------
  // Lemmas

  /** Every trade is a win, a loss or neither, never both. */
  lemma {:induction false} WinsAndLossesAtMostTotal(ts: seq<Trade>)
    ensures WinCount(ts) + LossCount(ts) <= |ts|
  {
    if |ts| > 0 {
      WinsAndLossesAtMostTotal(ts[..|ts| - 1]);
    }
  }

  /** Gross profit is non-negative, gross loss non-positive, and together they
      are the PnL of all trades (break-even trades contribute nothing). */
  lemma {:induction false} GrossSplit(ts: seq<Trade>)
    ensures GrossProfit(ts) >= 0.0 && GrossLoss(ts) <= 0.0
    ensures GrossProfit(ts) + GrossLoss(ts) == SumPnL(ts)
  {
    if |ts| > 0 {
      GrossSplit(ts[..|ts| - 1]);
    }
  }

  /** No win counted means no profit, no loss counted means no loss. */
  lemma {:induction false} GrossZeroWithoutCount(ts: seq<Trade>)
    ensures WinCount(ts) == 0 ==> GrossProfit(ts) == 0.0
    ensures LossCount(ts) == 0 ==> GrossLoss(ts) == 0.0
  {
    if |ts| > 0 {
      GrossZeroWithoutCount(ts[..|ts| - 1]);
    }
  }

  /** The peak is at least every balance the run passed through, and is one of them. */
  lemma {:induction false} PeakIsHighestBalance(initial: real, ts: seq<Trade>)
    ensures forall k :: 0 <= k <= |ts| ==> Peak(initial, ts) >= Running(initial, ts[..k])
    ensures exists k :: 0 <= k <= |ts| && Peak(initial, ts) == Running(initial, ts[..k])
  {
    if |ts| == 0 {
      assert Running(initial, ts[..0]) == initial;
    } else {
      var init := ts[..|ts| - 1];
      PeakIsHighestBalance(initial, init);
      assert ts[..|ts|] == ts;
      forall k | 0 <= k <= |ts|
        ensures Peak(initial, ts) >= Running(initial, ts[..k])
      {
        if k < |ts| {
          assert ts[..k] == init[..k];
        }
      }
      if Peak(initial, ts) != Running(initial, ts) {
        var k :| 0 <= k <= |init| && Peak(initial, init) == Running(initial, init[..k]);
        assert ts[..k] == init[..k];
      }
    }
  }

  /** The maximum drawdown bounds every fall from an earlier balance to a later
      one, and is either zero or attained by some trade. */
  lemma {:induction false} MaxDrawdownIsLargestFall(initial: real, ts: seq<Trade>)
    ensures forall j, k :: 0 <= j <= k <= |ts| ==>
              MaxDrawdown(initial, ts) >= Running(initial, ts[..j]) - Running(initial, ts[..k])
    ensures MaxDrawdown(initial, ts) == 0.0 ||
            exists k :: 0 < k <= |ts| && MaxDrawdown(initial, ts) == Peak(initial, ts[..k]) - Running(initial, ts[..k])
  {
    if |ts| > 0 {
      var init := ts[..|ts| - 1];
      MaxDrawdownIsLargestFall(initial, init);
      assert ts[..|ts|] == ts;
      forall j, k | 0 <= j <= k <= |ts|
        ensures MaxDrawdown(initial, ts) >= Running(initial, ts[..j]) - Running(initial, ts[..k])
      {
        if k < |ts| {
          assert ts[..j] == init[..j];
          assert ts[..k] == init[..k];
        } else {
          PeakIsHighestBalance(initial, ts);
        }
      }
      if MaxDrawdown(initial, ts) != 0.0 && MaxDrawdown(initial, ts) != Peak(initial, ts) - Running(initial, ts) {
        var k :| 0 < k <= |init| && MaxDrawdown(initial, init) == Peak(initial, init[..k]) - Running(initial, init[..k]);
        assert ts[..k] == init[..k];
      }
    }
  }

  /** Moving the starting balance moves the peak by the same amount and leaves
      the drawdown amount unchanged; only its percentage depends on the start. */
  lemma {:induction false} DrawdownIgnoresStart(a: real, b: real, ts: seq<Trade>)
    ensures Peak(a, ts) - a == Peak(b, ts) - b
    ensures MaxDrawdown(a, ts) == MaxDrawdown(b, ts)
  {
    if |ts| > 0 {
      DrawdownIgnoresStart(a, b, ts[..|ts| - 1]);
    }
  }

  /** The counts never exceed the total, and the win rate is a percentage. */
  lemma WinRateBounds(initial: real, final: real, ts: seq<Trade>)
    ensures var st := StatsOf(initial, final, ts);
            st.winningTrades + st.losingTrades <= st.totalTrades && 0.0 <= st.winRate <= 100.0
  {
    WinsAndLossesAtMostTotal(ts);
    if |ts| > 0 {
      var st := StatsOf(initial, final, ts);
      var n, w := |ts| as real, WinCount(ts) as real;
      assert st.winRate == w / n * 100.0;
      QuotientBounds(w, n);
    }
  }

  /** Profit factor and average win are never negative, the average loss never positive. */
  lemma ProfitSigns(initial: real, final: real, ts: seq<Trade>)
    ensures var st := StatsOf(initial, final, ts);
            st.grossProfit >= 0.0 && st.grossLoss <= 0.0 &&
            st.profitFactor >= 0.0 && st.avgWin >= 0.0 && st.avgLoss <= 0.0
  {
    GrossSplit(ts);
    if |ts| > 0 {
      var st := StatsOf(initial, final, ts);
      var gp, gl := GrossProfit(ts), GrossLoss(ts);
      if gl != 0.0 {
        assert st.profitFactor == gp / -gl;
      }
      if WinCount(ts) > 0 {
        assert st.avgWin == gp / WinCount(ts) as real;
      }
      if LossCount(ts) > 0 {
        assert st.avgLoss == gl / LossCount(ts) as real;
      }
    }
  }

  /** Drawdown, in money and in percent of the peak, is never negative. */
  lemma DrawdownSigns(initial: real, final: real, ts: seq<Trade>)
    ensures var st := StatsOf(initial, final, ts);
            st.maxDrawdown >= 0.0 && st.maxDrawdownPercent >= 0.0
  {
    if |ts| > 0 {
      var st := StatsOf(initial, final, ts);
      var peak := Peak(initial, ts);
      if peak > 0.0 {
        assert st.maxDrawdownPercent == MaxDrawdown(initial, ts) / peak * 100.0;
      }
    }
  }

  lemma QuotientBounds(x: real, y: real)
    requires 0.0 <= x <= y && y > 0.0
    ensures 0.0 <= x / y * 100.0 <= 100.0
  {
    assert x / y <= 1.0;
  }

  /** A win of 5 then a loss of 15 on a balance of 10000. */
  lemma StatsScenario(a: Trade, b: Trade)
    requires a.pnl == 5.0 && b.pnl == -15.0
    requires a.exitTime - a.entryTime == 60 && b.exitTime - b.entryTime == 121
    ensures var st := StatsOf(10000.0, 9990.0, [a, b]);
            st.totalTrades == 2 && st.winningTrades == 1 && st.losingTrades == 1 &&
            st.winRate == 50.0 && st.totalPnL == -10.0 && st.totalPnLPercent == -0.1 &&
            st.grossProfit == 5.0 && st.grossLoss == -15.0 && st.profitFactor == 5.0 / 15.0 &&
            st.avgWin == 5.0 && st.avgLoss == -15.0 && st.expectedValue == -5.0 &&
            st.maxDrawdown == 15.0 && st.maxDrawdownPercent == 15.0 / 10005.0 * 100.0 &&
            st.avgTradeDuration == 90
  {
    var ts := [a, b];
    assert ts[..1] == [a];
    assert [a][..0] == [];
    assert SumPnL([a]) == 5.0;
    assert SumPnL(ts) == -10.0;
    assert Peak(10000.0, [a]) == 10005.0;
    assert Peak(10000.0, ts) == 10005.0;
    assert MaxDrawdown(10000.0, [a]) == 0.0;
    assert MaxDrawdown(10000.0, ts) == 15.0;
    assert WinCount([a]) == 1 && LossCount([a]) == 0;
    assert GrossProfit([a]) == 5.0 && GrossLoss([a]) == 0.0;
    assert WinCount(ts) == 1 && LossCount(ts) == 1;
    assert GrossProfit(ts) == 5.0 && GrossLoss(ts) == -15.0;
    assert TotalDuration([a]) == 60;
    assert TotalDuration(ts) == 181;
    var st := StatsOf(10000.0, 9990.0, ts);
    assert st.winRate == 1.0 / 2.0 * 100.0;
    assert st.totalPnLPercent == -10.0 / 10000.0 * 100.0;
    assert st.profitFactor == 5.0 / 15.0;
    assert st.maxDrawdownPercent == 15.0 / 10005.0 * 100.0;
    assert st.avgTradeDuration == TruncDiv(181, 2);
  }

  // ---------------------------------------------------------------------------
  // The results of a run, with the lazily computed statistics

  class Results {
    var initialBalance: real
    var finalBalance: real
    var trades: seq<Trade>
    var stats: Option<Statistics>

    constructor (initialBalance: real, finalBalance: real, trades: seq<Trade>)
      ensures this.initialBalance == initialBalance && this.finalBalance == finalBalance
      ensures this.trades == trades && stats == None
    {
      this.initialBalance := initialBalance;
      this.finalBalance := finalBalance;
      this.trades := trades;
      stats := None;
    }

    /** The statistics, computed on the first call and returned from the cache after. */
    method Calculate() returns (s: Statistics)
      modifies this`stats
      ensures old(stats).Some? ==> s == old(stats).value && stats == old(stats)
      ensures old(stats).None? ==> s == StatsOf(initialBalance, finalBalance, trades) && stats == Some(s)
    {
      if stats.Some? {
        return stats.value;
      }
      if |trades| == 0 {
        s := ZeroStatistics;
        stats := Some(s);
        return;
      }
      var wins, losses := 0, 0;
      var totalWin, totalLoss := 0.0, 0.0;
      var totalDuration := 0;
      var peak := initialBalance;
      var maxDD := 0.0;
      var runningBalance := initialBalance;
      for i := 0 to |trades|
        invariant wins == WinCount(trades[..i]) && losses == LossCount(trades[..i])
        invariant totalWin == GrossProfit(trades[..i]) && totalLoss == GrossLoss(trades[..i])
        invariant runningBalance == Running(initialBalance, trades[..i])
        invariant peak == Peak(initialBalance, trades[..i])
        invariant maxDD == MaxDrawdown(initialBalance, trades[..i])
        invariant totalDuration == TotalDuration(trades[..i])
      {
        var trade := trades[i];
        assert trades[..i + 1][..i] == trades[..i];
        if trade.pnl > 0.0 {
          wins := wins + 1;
          totalWin := totalWin + trade.pnl;
        } else if trade.pnl < 0.0 {
          losses := losses + 1;
          totalLoss := totalLoss + trade.pnl;
        }
        runningBalance := runningBalance + trade.pnl;
        if runningBalance > peak {
          peak := runningBalance;
        }
        var dd := peak - runningBalance;
        if dd > maxDD {
          maxDD := dd;
        }
        totalDuration := totalDuration + (trade.exitTime - trade.entryTime);
      }
      assert trades[..|trades|] == trades;
      var n := |trades|;
      var totalPnL := finalBalance - initialBalance;
      s := Statistics(
        n, wins, losses, wins as real / n as real * 100.0,
        totalPnL, if initialBalance == 0.0 then 0.0 else totalPnL / initialBalance * 100.0,
        totalWin, totalLoss, if totalLoss != 0.0 then totalWin / -totalLoss else 0.0,
        if wins > 0 then totalWin / wins as real else 0.0,
        if losses > 0 then totalLoss / losses as real else 0.0,
        totalPnL / n as real,
        maxDD, if peak > 0.0 then maxDD / peak * 100.0 else 0.0,
        TruncDiv(totalDuration, n));
      stats := Some(s);
    }
  }
}
