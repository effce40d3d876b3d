/** How the two halves of the system fit together: a backtest result stored as a dashboard row
    and re-aggregated over a window that holds all of its trades comes back unchanged. */
module Consistency {
  import opened Options
  import opened Calendar
  import opened Windows
  import Backtest
  import BacktestProperties
  import Dashboard

  /** A backtest's trade list as saved in `trade_history`: every time is present. */
  function Stored(trades: seq<Backtest.Trade>): (s: seq<Dashboard.StoredTrade>)
    ensures |s| == |trades|
    ensures forall k :: 0 <= k < |trades| ==> s[k].time == Some(trades[k].time) && s[k].pnl == trades[k].pnl
  {
    seq(|trades|, k requires 0 <= k < |trades| => Dashboard.StoredTrade(Some(trades[k].time), trades[k].pnl))
  }

  /** The result row saved for a backtest. */
  function RowOf(m: Backtest.Metrics): (row: Dashboard.Row)
    ensures (row.returnPct, row.winRate, row.trades) == (m.returnPct, m.winRate, m.trades)
    ensures row.history.Some? && Dashboard.StoredPnls(row.history.value) == Backtest.Pnls(m.history)
    ensures forall k :: 0 <= k < |row.history.value| ==> row.history.value[k].time.Some?
  {
    Dashboard.Row(m.returnPct, m.winRate, m.trades, Some(Stored(m.history)))
  }

  /** Re-aggregating a stored backtest over a window that holds all of its trades gives back
      the return, win rate and trade count the backtest reported. */
  lemma WholeWindowKeepsMetrics(strategy: Backtest.Strategy, bars: seq<Backtest.Bar>, f: Filter)
    requires Backtest.PositiveCloses(bars) && |bars| >= Backtest.MinBars
    requires var h := Backtest.Simulate(strategy, bars, |bars|).trades;
      forall k :: 0 <= k < |h| ==> Includes(f, h[k].time)
    ensures var m := Backtest.Outcome(strategy, bars).value;
      Dashboard.Reaggregate(RowOf(m), f) == RowOf(m)
  {
    var m := Backtest.Outcome(strategy, bars).value;
    assert m.history == Backtest.Simulate(strategy, bars, |bars|).trades;
    var stored := Stored(m.history);
    Dashboard.KeptAll(stored, f);
    assert Dashboard.StoredPnls(stored) == Backtest.Pnls(m.history);
    BacktestProperties.MetricsAreReplayOfHistory(strategy, bars);
  }

  /** In particular a window that holds every bar the backtest processed, on a chronological
      series, keeps the backtest's metrics. */
  lemma CoveringWindowKeepsMetrics(strategy: Backtest.Strategy, bars: seq<Backtest.Bar>, f: Filter)
    requires Backtest.PositiveCloses(bars) && |bars| >= Backtest.MinBars
    requires BacktestProperties.Chronological(bars)
    requires forall i :: Backtest.Warmup(strategy) <= i < |bars| ==> Includes(f, bars[i].time)
    ensures var m := Backtest.Outcome(strategy, bars).value;
      Dashboard.Reaggregate(RowOf(m), f) == RowOf(m)
  {
    TradesInWindow(strategy, bars, f);
    WholeWindowKeepsMetrics(strategy, bars, f);
  }

  /** Every trade is stamped with a processed bar's time, so such a window holds it. */
  lemma TradesInWindow(strategy: Backtest.Strategy, bars: seq<Backtest.Bar>, f: Filter)
    requires Backtest.PositiveCloses(bars) && BacktestProperties.Chronological(bars)
    requires forall i :: Backtest.Warmup(strategy) <= i < |bars| ==> Includes(f, bars[i].time)
    ensures var h := Backtest.Simulate(strategy, bars, |bars|).trades;
      forall k :: 0 <= k < |h| ==> Includes(f, h[k].time)
  {
    var h := Backtest.Simulate(strategy, bars, |bars|).trades;
    BacktestProperties.TradeTimes(strategy, bars, |bars|);
    forall k | 0 <= k < |h|
      ensures Includes(f, h[k].time)
    {
      assert Backtest.Warmup(strategy) < |bars| && LessEq(h[k].time, bars[|bars| - 1].time);
      IncludesBetween(f, bars[Backtest.Warmup(strategy)].time, bars[|bars| - 1].time, h[k].time);
    }
  }
}
