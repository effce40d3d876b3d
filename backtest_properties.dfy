/** What the backtest loop of batch_analyzer.py guarantees, stated about the functional model
    `Backtest.Simulate` that the `Engine` class and `Run` method are proved to follow. */
module BacktestProperties {
  import opened Options
  import opened Calendar
  import Ledger
  import opened Backtest

  /** Bar timestamps strictly increase, as in a time-indexed price series. */
  predicate Chronological(bars: seq<Bar>) {
    forall i, j :: 0 <= i < j < |bars| ==> Before(bars[i].time, bars[j].time)
  }

  predicate IncreasingTimes(trades: seq<Trade>) {
    forall a, b :: 0 <= a < b < |trades| ==> Before(trades[a].time, trades[b].time)
  }

  /** The RSI v2 stop-loss trigger for an open `side` entered at `entry`. */
  predicate StopLossHit(side: Side, entry: real, close: real) {
    if side == Long then close <= entry * (1.0 - StopLossFraction)
    else close >= entry * (1.0 + StopLossFraction)
  }

  /** The RSI v2 long set-up: above the trend average and RSI crossing up through 30. */
  predicate LongSetup(bars: seq<Bar>, i: nat)
    requires 1 <= i < |bars|
  {
    Gt(Some(bars[i].close), bars[i].ema200) && Lt(bars[i - 1].rsi, Some(Oversold)) && Ge(bars[i].rsi, Some(Oversold))
  }

  /** The RSI v2 short set-up: below the trend average and RSI crossing down through 70. */
  predicate ShortSetup(bars: seq<Bar>, i: nat)
    requires 1 <= i < |bars|
  {
    Lt(Some(bars[i].close), bars[i].ema200) && Gt(bars[i - 1].rsi, Some(Overbought)) && Le(bars[i].rsi, Some(Overbought))
  }

  /** Bar `i` opened a position: one is open afterwards and either none was open before or the
      old one was closed on this bar. */
  predicate Opened(s: EngineState, r: EngineState) {
    r.position.Some? && (s.position.None? || |r.trades| > |s.trades|)
  }

  // ---------------------------------------------------------------------------------------
  // Warm-up

  /** No bar before the warm-up index changes anything. */
  lemma {:induction false} NothingBeforeWarmup(strategy: Strategy, bars: seq<Bar>, n: nat)
    requires n <= |bars| && n <= Warmup(strategy) && PositiveCloses(bars)
    ensures Simulate(strategy, bars, n) == Start
  {
    if n > 0 {
      NothingBeforeWarmup(strategy, bars, n - 1);
    }
  }

  /** The engine never looks at bars before the warm-up index, except the one just before it,
      whose indicators serve as the "previous" values of the first processed bar. */
  lemma {:induction false} EarlyBarsIgnored(strategy: Strategy, a: seq<Bar>, b: seq<Bar>, n: nat)
    requires |a| == |b| && n <= |a| && PositiveCloses(a) && PositiveCloses(b)
    requires forall j :: Warmup(strategy) - 1 <= j < |a| ==> a[j] == b[j]
    ensures Simulate(strategy, a, n) == Simulate(strategy, b, n)
  {
    if n > 0 {
      var i := n - 1;
      EarlyBarsIgnored(strategy, a, b, i);
      var s := Simulate(strategy, a, i);
      if i >= Warmup(strategy) {
        assert a[i] == b[i] && a[i - 1] == b[i - 1];
        StepIgnoresEarlyBars(strategy, s, a, b, i);
        assert Simulate(strategy, a, n) == StepSpec(strategy, s, a, i);
        assert Simulate(strategy, b, n) == StepSpec(strategy, s, b, i);
      } else {
        assert Simulate(strategy, a, n) == s;
        assert Simulate(strategy, b, n) == Simulate(strategy, b, i);
      }
    }
  }

  /** One step reads only the current and the previous bar. */
  lemma StepIgnoresEarlyBars(strategy: Strategy, s: EngineState, a: seq<Bar>, b: seq<Bar>, i: nat)
    requires Warmup(strategy) <= i < |a| == |b| && PositiveCloses(a) && PositiveCloses(b) && Sane(s)
    requires a[i] == b[i] && a[i - 1] == b[i - 1]
    ensures StepSpec(strategy, s, a, i) == StepSpec(strategy, s, b, i)
  {
    if s.position.Some? {
      assert ExitOf(strategy, a, i, s.position.value, s.entryPrice)
          == ExitOf(strategy, b, i, s.position.value, s.entryPrice);
    }
    assert EntryOf(strategy, a, i) == EntryOf(strategy, b, i);
  }

  /** The whole result, metrics and signal included, depends only on the bars from two before
      the warm-up index on. */
  lemma OutcomeIgnoresEarlyBars(strategy: Strategy, a: seq<Bar>, b: seq<Bar>)
    requires |a| == |b| && PositiveCloses(a) && PositiveCloses(b)
    requires forall j :: Warmup(strategy) - 2 <= j < |a| ==> a[j] == b[j]
    ensures Outcome(strategy, a) == Outcome(strategy, b)
  {
    if |a| >= MinBars {
      EarlyBarsIgnored(strategy, a, b, |a|);
      var s := Simulate(strategy, a, |a|);
      SignalIgnoresEarlyBars(strategy, a, b);
      assert CalculateMetrics(s.balance, s.trades, a, strategy) == CalculateMetrics(s.balance, s.trades, b, strategy);
    }
  }

  /** The closing signal reads only the last two bars. */
  lemma SignalIgnoresEarlyBars(strategy: Strategy, a: seq<Bar>, b: seq<Bar>)
    requires 2 <= |a| == |b| && a[|a| - 1] == b[|b| - 1] && a[|a| - 2] == b[|b| - 2]
    ensures CurrentSignal(strategy, a) == CurrentSignal(strategy, b)
  {
  }

  // ---------------------------------------------------------------------------------------
  // Ledger

  /** The running balance is the trade list replayed from the initial capital. */
  lemma {:induction false} BalanceIsReplay(strategy: Strategy, bars: seq<Bar>, n: nat)
    requires n <= |bars| && PositiveCloses(bars)
    ensures var s := Simulate(strategy, bars, n);
      s.balance == Ledger.Replay(Ledger.InitialBalance, Pnls(s.trades))
  {
    if n > 0 {
      BalanceIsReplay(strategy, bars, n - 1);
      var s := Simulate(strategy, bars, n - 1);
      if n - 1 >= Warmup(strategy) {
        StepKeepsReplay(strategy, s, bars, n - 1);
      }
    }
  }

  lemma StepKeepsReplay(strategy: Strategy, s: EngineState, bars: seq<Bar>, i: nat)
    requires Warmup(strategy) <= i < |bars| && PositiveCloses(bars) && Sane(s)
    requires s.balance == Ledger.Replay(Ledger.InitialBalance, Pnls(s.trades))
    ensures var r := StepSpec(strategy, s, bars, i);
      r.balance == Ledger.Replay(Ledger.InitialBalance, Pnls(r.trades))
  {
    ExtensionKeepsReplay(s, StepSpec(strategy, s, bars, i));
  }

  /** A state that extends another by at most one trade, compounding the balance by that trade's
      return, keeps "balance = replay of the trades". */
  lemma ExtensionKeepsReplay(s: EngineState, r: EngineState)
    requires s.balance == Ledger.Replay(Ledger.InitialBalance, Pnls(s.trades))
    requires |s.trades| <= |r.trades| <= |s.trades| + 1 && r.trades[..|s.trades|] == s.trades
    requires |r.trades| == |s.trades| ==> r.balance == s.balance
    requires |r.trades| == |s.trades| + 1 ==> r.balance == Ledger.Mul(s.balance, 1.0 + r.trades[|s.trades|].pnl)
    ensures r.balance == Ledger.Replay(Ledger.InitialBalance, Pnls(r.trades))
  {
    if |r.trades| == |s.trades| {
      assert r.trades == r.trades[..|s.trades|];
    } else {
      var t := r.trades[|s.trades|];
      assert r.trades == s.trades + [t];
      PnlsSnoc(s.trades, t);
      Ledger.ReplaySnoc(Ledger.InitialBalance, Pnls(s.trades), t.pnl);
    }
  }

  lemma PnlsSnoc(ts: seq<Trade>, t: Trade)
    ensures Pnls(ts + [t]) == Pnls(ts) + [t.pnl]
  {
  }

  /** The final balance is 1,000,000 times the product of `1 + pnl` over the trades in order. */
  lemma FinalBalanceIsCompounded(strategy: Strategy, bars: seq<Bar>)
    requires PositiveCloses(bars)
    ensures var s := Simulate(strategy, bars, |bars|);
      s.balance == Ledger.Mul(Ledger.InitialBalance, Ledger.Growth(Pnls(s.trades)))
  {
    var s := Simulate(strategy, bars, |bars|);
    BalanceIsReplay(strategy, bars, |bars|);
    Ledger.ReplayIsScaledGrowth(Ledger.InitialBalance, Pnls(s.trades));
  }

  /** The reported return, win rate and count are those of replaying the reported trade
      history: the contract the dashboard's re-aggregation relies on. */
  lemma MetricsAreReplayOfHistory(strategy: Strategy, bars: seq<Bar>)
    requires PositiveCloses(bars) && |bars| >= MinBars
    ensures var m := Outcome(strategy, bars).value;
      Ledger.Aggregate(Pnls(m.history)) == Ledger.Summary(m.returnPct, m.winRate, m.trades)
  {
    BalanceIsReplay(strategy, bars, |bars|);
  }

  // ---------------------------------------------------------------------------------------
  // Order of trades

  /** At most one trade per bar, each stamped with its bar's time, so trade times strictly
      increase and lie between the first processed bar and the last visited one. */
  lemma {:induction false} TradeTimes(strategy: Strategy, bars: seq<Bar>, n: nat)
    requires n <= |bars| && PositiveCloses(bars) && Chronological(bars)
    ensures var ts := Simulate(strategy, bars, n).trades;
      && IncreasingTimes(ts)
      && forall k :: 0 <= k < |ts| ==>
           && Warmup(strategy) < n
           && LessEq(bars[Warmup(strategy)].time, ts[k].time)
           && LessEq(ts[k].time, bars[n - 1].time)
  {
    if n > 0 {
      var i := n - 1;
      if i < Warmup(strategy) {
        NothingBeforeWarmup(strategy, bars, n);
      } else {
        TradeTimes(strategy, bars, i);
        StepTradeTimes(strategy, Simulate(strategy, bars, i), bars, i);
      }
    }
  }

  /** One step keeps the trade times increasing and within the processed bars. */
  lemma StepTradeTimes(strategy: Strategy, s: EngineState, bars: seq<Bar>, i: nat)
    requires Warmup(strategy) <= i < |bars| && PositiveCloses(bars) && Chronological(bars) && Sane(s)
    requires IncreasingTimes(s.trades)
    requires forall k :: 0 <= k < |s.trades| ==>
      LessEq(bars[Warmup(strategy)].time, s.trades[k].time) && LessEq(s.trades[k].time, bars[i - 1].time)
    ensures var ts := StepSpec(strategy, s, bars, i).trades;
      && IncreasingTimes(ts)
      && forall k :: 0 <= k < |ts| ==>
           LessEq(bars[Warmup(strategy)].time, ts[k].time) && LessEq(ts[k].time, bars[i].time)
  {
    var r := StepSpec(strategy, s, bars, i);
    forall k | 0 <= k < |s.trades|
      ensures Before(s.trades[k].time, bars[i].time)
    {
      BeforeTransitive(s.trades[k].time, bars[i - 1].time, bars[i].time);
    }
    assert forall k :: 0 <= k < |s.trades| ==> r.trades[k] == s.trades[k];
    if |r.trades| > |s.trades| {
      assert r.trades[|s.trades|].time == bars[i].time;
      assert LessEq(bars[Warmup(strategy)].time, bars[i].time);
    }
  }

  // ---------------------------------------------------------------------------------------
  // RSI v1 and EMA: every exit is a reversal

  /** In RSI v1 and EMA crossover the exit condition of one side is the entry condition of the
      other, so a bar either leaves an open position alone or closes it and opens the opposite
      side at the same close. */
  lemma ExitReverses(strategy: Strategy, s: EngineState, bars: seq<Bar>, i: nat)
    requires strategy != RsiV2 && Warmup(strategy) <= i < |bars| && PositiveCloses(bars) && Sane(s)
    requires s.position.Some?
    ensures var r := StepSpec(strategy, s, bars, i);
      || r == s
      || (&& |r.trades| == |s.trades| + 1
          && r.position == Some(Opposite(s.position.value))
          && r.entryPrice == bars[i].close)
  {
  }

  /** Once RSI v1 or EMA crossover has opened a position, it is never flat again. */
  lemma {:induction false} StaysInMarket(strategy: Strategy, bars: seq<Bar>, k: nat, n: nat)
    requires strategy != RsiV2 && k <= n <= |bars| && PositiveCloses(bars)
    requires Simulate(strategy, bars, k).position.Some?
    ensures Simulate(strategy, bars, n).position.Some?
    decreases n - k
  {
    if k < n {
      var s := Simulate(strategy, bars, k);
      var next := Simulate(strategy, bars, k + 1);
      if k >= Warmup(strategy) {
        ExitReverses(strategy, s, bars, k);
      }
      assert next.position.Some?;
      StaysInMarket(strategy, bars, k + 1, n);
    }
  }

  // ---------------------------------------------------------------------------------------
  // RSI v2

  /** A bar whose RSI or EMA 200 is NaN neither exits nor enters. */
  lemma UndefinedBarIsSkipped(s: EngineState, bars: seq<Bar>, i: nat)
    requires Warmup(RsiV2) <= i < |bars| && PositiveCloses(bars) && Sane(s)
    requires bars[i].rsi.None? || bars[i].ema200.None?
    ensures StepSpec(RsiV2, s, bars, i) == s
  {
  }

  /** The stop-loss is tested before take-profit: when it triggers, the bar records a
      "Stop Loss" exit whatever the RSI says. */
  lemma StopLossTakesPrecedence(s: EngineState, bars: seq<Bar>, i: nat)
    requires Warmup(RsiV2) <= i < |bars| && PositiveCloses(bars) && Sane(s)
    requires bars[i].rsi.Some? && bars[i].ema200.Some?
    requires s.position.Some? && StopLossHit(s.position.value, s.entryPrice, bars[i].close)
    ensures var r := StepSpec(RsiV2, s, bars, i);
      && |r.trades| == |s.trades| + 1
      && r.trades[|s.trades|].reason == Some(StopLossReason)
      && r.trades[|s.trades|].pnl == Pnl(s.position.value, s.entryPrice, bars[i].close)
  {
  }

  /** Take-profit fires only without a stop-loss, on the side's own RSI threshold. */
  lemma TakeProfitReason(s: EngineState, bars: seq<Bar>, i: nat)
    requires Warmup(RsiV2) <= i < |bars| && PositiveCloses(bars) && Sane(s)
    requires bars[i].rsi.Some? && bars[i].ema200.Some?
    requires s.position.Some? && !StopLossHit(s.position.value, s.entryPrice, bars[i].close)
    ensures var r := StepSpec(RsiV2, s, bars, i);
      && (s.position == Some(Long) ==>
            (|r.trades| > |s.trades| <==> bars[i].rsi.value > Overbought))
      && (s.position == Some(Short) ==>
            (|r.trades| > |s.trades| <==> bars[i].rsi.value < Oversold))
      && (|r.trades| > |s.trades| ==>
            r.trades[|s.trades|].reason
              == Some(if s.position == Some(Long) then TakeProfitLongReason else TakeProfitShortReason))
  {
  }

  /** A triggered stop-loss loses at least 2%. */
  lemma StopLossPnlBound(side: Side, entry: real, close: real)
    requires entry > 0.0 && StopLossHit(side, entry, close)
    ensures Pnl(side, entry, close) <= -StopLossFraction
  {
    if side == Long {
      DivideBound(close - entry, entry, -StopLossFraction);
    } else {
      DivideBound(entry - close, entry, -StopLossFraction);
    }
  }

  lemma DivideBound(x: real, e: real, k: real)
    requires e > 0.0 && x <= k * e
    ensures x / e <= k
  {
    var q := x / e;
    assert q * e == x;
    if q > k {
      assert q * e > k * e;
    }
  }

  /** Only RSI v2 trades carry a reason, each of them does, and a "Stop Loss" exit lost at
      least 2%. */
  predicate ReasonsHold(strategy: Strategy, ts: seq<Trade>) {
    forall k :: 0 <= k < |ts| ==>
      && (ts[k].reason.Some? <==> strategy == RsiV2)
      && (ts[k].reason == Some(StopLossReason) ==> ts[k].pnl <= -StopLossFraction)
  }

  /** Every "Stop Loss" trade of an RSI v2 run has pnl at most -2%; every RSI v2 trade carries a
      reason and no RSI v1 or EMA trade does. */
  lemma {:induction false} StopLossTradesLose(strategy: Strategy, bars: seq<Bar>, n: nat)
    requires n <= |bars| && PositiveCloses(bars)
    ensures ReasonsHold(strategy, Simulate(strategy, bars, n).trades)
  {
    if n > 0 && n - 1 >= Warmup(strategy) {
      StopLossTradesLose(strategy, bars, n - 1);
      var i := n - 1;
      var s := Simulate(strategy, bars, i);
      var r := StepSpec(strategy, s, bars, i);
      assert r == Simulate(strategy, bars, n);
      assert forall k :: 0 <= k < |s.trades| ==> r.trades[k] == s.trades[k];
      forall k | 0 <= k < |r.trades|
        ensures r.trades[k].reason.Some? <==> strategy == RsiV2
        ensures r.trades[k].reason == Some(StopLossReason) ==> r.trades[k].pnl <= -StopLossFraction
      {
        if k < |s.trades| {
          assert r.trades[k] == s.trades[k];
        } else {
          var side := s.position.value;
          var e := ExitOf(strategy, bars, i, side, s.entryPrice);
          assert e.Some? && r.trades[k] == Trade(bars[i].time, e.value.pnl, e.value.reason);
          assert TakeProfitLongReason != StopLossReason && TakeProfitShortReason != StopLossReason;
          if strategy == RsiV2 && e.value.reason == Some(StopLossReason) {
            assert StopLossHit(side, s.entryPrice, bars[i].close);
            StopLossPnlBound(side, s.entryPrice, bars[i].close);
          }
        }
      }
    } else if n > 0 {
      NothingBeforeWarmup(strategy, bars, n);
    }
  }

  /** RSI v2 opens a long only on an up-cross of 30 above the trend average and a short only on
      a down-cross of 70 below it, always at the bar's close; a flat engine with a set-up and
      defined indicators does open. A close equal to EMA 200 never opens. */
  lemma RsiV2EntryRule(s: EngineState, bars: seq<Bar>, i: nat)
    requires Warmup(RsiV2) <= i < |bars| && PositiveCloses(bars) && Sane(s)
    ensures var r := StepSpec(RsiV2, s, bars, i);
      && (Opened(s, r) ==>
            && r.entryPrice == bars[i].close
            && (r.position == Some(Long) ==> LongSetup(bars, i))
            && (r.position == Some(Short) ==> ShortSetup(bars, i)))
      && (s.position.None? && LongSetup(bars, i) ==> r.position == Some(Long) && Opened(s, r))
      && (s.position.None? && ShortSetup(bars, i) ==> r.position == Some(Short) && Opened(s, r))
      && (bars[i].ema200 == Some(bars[i].close) ==> !Opened(s, r))
  {
  }

  /** A flat EMA engine opens long exactly when the fast average crosses above the slow one
      (at or below it on the previous bar, above it now) and short exactly on the mirror
      cross, at the bar's close. */
  lemma EmaEntryIsCross(s: EngineState, bars: seq<Bar>, i: nat)
    requires Warmup(EmaCross) <= i < |bars| && PositiveCloses(bars) && Sane(s) && s.position.None?
    ensures var r := StepSpec(EmaCross, s, bars, i);
      && (r.position == Some(Long) <==>
            Le(bars[i - 1].emaFast, bars[i - 1].emaSlow) && Gt(bars[i].emaFast, bars[i].emaSlow))
      && (r.position == Some(Short) <==>
            Ge(bars[i - 1].emaFast, bars[i - 1].emaSlow) && Lt(bars[i].emaFast, bars[i].emaSlow))
      && (r.position.Some? ==> r.entryPrice == bars[i].close && r.trades == s.trades)
  {
  }

  // ---------------------------------------------------------------------------------------
  // Current signal

  /** The RSI v2 signal is Buy or Sell exactly when the loop's entry rule holds on the last
      bar. */
  lemma RsiV2SignalIsEntryRule(bars: seq<Bar>)
    requires |bars| >= 2
    ensures CurrentSignal(RsiV2, bars) == "Buy (Trend Follow)" <==> LongSetup(bars, |bars| - 1)
    ensures CurrentSignal(RsiV2, bars) == "Sell (Trend Follow)" <==> ShortSetup(bars, |bars| - 1)
  {
  }

  /** The RSI v1 signal is Buy below 30, Sell above 70 and Hold otherwise (NaN included): the
      entry rule of the loop evaluated on the last bar. */
  lemma RsiV1SignalIsEntryRule(bars: seq<Bar>)
    requires |bars| >= MinBars
    ensures CurrentSignal(RsiV1, bars) == "Buy (OverSold)" <==> EntryOf(RsiV1, bars, |bars| - 1) == Some(Long)
    ensures CurrentSignal(RsiV1, bars) == "Sell (OverBought)" <==> EntryOf(RsiV1, bars, |bars| - 1) == Some(Short)
    ensures CurrentSignal(RsiV1, bars) == "Hold" <==> EntryOf(RsiV1, bars, |bars| - 1).None?
  {
  }

  /** The EMA signal only says which average is above: Bull exactly when fast > slow. */
  lemma EmaSignalIsTrend(bars: seq<Bar>)
    requires |bars| >= 2
    ensures CurrentSignal(EmaCross, bars) == "Hold (Bull)" <==> Gt(bars[|bars| - 1].emaFast, bars[|bars| - 1].emaSlow)
  {
  }
}
