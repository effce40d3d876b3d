/** The bar-by-bar backtest of batch_analyzer.py: three rule sets (RSI v1, EMA crossover, RSI v2
    with trend filter and stop-loss) driving one position state machine, and the metrics and
    current signal computed from its final state.

    The indicator series (RSI 14, EMA 25/120, EMA 200) are inputs, carried on each bar; a value
    that pandas would hold as NaN is `None`, and every comparison with it is false, as with NaN
    in Python. */
module Backtest {
  import opened Options
  import opened Calendar
  import Ledger

  /** Series shorter than this produce no result. */
  const MinBars: nat := 200
  /** RSI level below which the market is oversold. */
  const Oversold: real := 30.0
  /** RSI level above which the market is overbought. */
  const Overbought: real := 70.0
  /** RSI v2 stop-loss distance from the entry price (2%). */
  const StopLossFraction: real := 0.02

  const StopLossReason: string := "Stop Loss"
  const TakeProfitLongReason: string := "Take Profit (RSI > 70)"
  const TakeProfitShortReason: string := "Take Profit (RSI < 30)"

  datatype Strategy = RsiV1 | EmaCross | RsiV2

  datatype Side = Long | Short

  /** One bar of the series with the indicator values aligned to it. */
  datatype Bar = Bar(
    time: DateTime,
    close: real,
    rsi: Option<real>,
    emaFast: Option<real>,
    emaSlow: Option<real>,
    ema200: Option<real>)

  /** An exit event `{time, 'Exit', pnl[, reason]}`; only RSI v2 records a reason. */
  datatype Trade = Trade(time: DateTime, pnl: real, reason: Option<string>)

  /** The engine's variables between bars. `entryPrice` keeps its last value while flat. */
  datatype EngineState = EngineState(position: Option<Side>, entryPrice: real, balance: real, trades: seq<Trade>)

  /** A decision to close the open position. */
  datatype Exit = Exit(pnl: real, reason: Option<string>)

  /** What `calculate_metrics` returns. */
  datatype Metrics = Metrics(
    returnPct: real,
    winRate: real,
    trades: nat,
    history: seq<Trade>,
    signal: string,
    lastPrice: real)

  const Start: EngineState := EngineState(None, 0.0, Ledger.InitialBalance, [])

  /** Bars before this index are skipped (indicator warm-up). Every processed bar has a
      previous bar, and a series long enough to be run reaches the warm-up index. */
  function Warmup(strategy: Strategy): (w: nat)
    ensures 1 <= w <= MinBars
  {
    if strategy == RsiV2 then 200 else 120
  }

  // Python comparisons on possibly-NaN floats: false whenever either side is NaN.
  predicate Lt(x: Option<real>, y: Option<real>) { x.Some? && y.Some? && x.value < y.value }
  predicate Le(x: Option<real>, y: Option<real>) { x.Some? && y.Some? && x.value <= y.value }
  predicate Gt(x: Option<real>, y: Option<real>) { x.Some? && y.Some? && x.value > y.value }
  predicate Ge(x: Option<real>, y: Option<real>) { x.Some? && y.Some? && x.value >= y.value }

  /** Prices are positive, so an entry price is never zero. */
  predicate PositiveCloses(bars: seq<Bar>) {
    forall i :: 0 <= i < |bars| ==> bars[i].close > 0.0
  }

  /** An open position has a positive entry price. */
  predicate Sane(s: EngineState) {
    s.position.Some? ==> s.entryPrice > 0.0
  }

  function Opposite(side: Side): Side {
    if side == Long then Short else Long
  }

  /** The fractional return of closing `side` opened at `entry` at price `close`. */
  function Pnl(side: Side, entry: real, close: real): (p: real)
    requires entry > 0.0
    ensures p > 0.0 <==> (if side == Long then close > entry else close < entry)
  {
    if side == Long then (close - entry) / entry else (entry - close) / entry
  }

  /** Whether bar `i` closes an open `side` entered at `entry`, with the pnl and reason. */
  function ExitOf(strategy: Strategy, bars: seq<Bar>, i: nat, side: Side, entry: real): (r: Option<Exit>)
    requires Warmup(strategy) <= i < |bars| && entry > 0.0
    ensures r.Some? ==> r.value.pnl == Pnl(side, entry, bars[i].close)
    ensures r.Some? ==> (r.value.reason.Some? <==> strategy == RsiV2)
    ensures strategy != RsiV2 ==> (r.Some? <==> EntryOf(strategy, bars, i) == Some(Opposite(side)))
  {
    var bar := bars[i];
    var prev := bars[i - 1];
    match strategy
    case RsiV1 =>
      if side == Long && Gt(bar.rsi, Some(Overbought)) then Some(Exit(Pnl(Long, entry, bar.close), None))
      else if side == Short && Lt(bar.rsi, Some(Oversold)) then Some(Exit(Pnl(Short, entry, bar.close), None))
      else None
    case EmaCross =>
      if side == Long && Ge(prev.emaFast, prev.emaSlow) && Lt(bar.emaFast, bar.emaSlow) then
        Some(Exit(Pnl(Long, entry, bar.close), None))
      else if side == Short && Le(prev.emaFast, prev.emaSlow) && Gt(bar.emaFast, bar.emaSlow) then
        Some(Exit(Pnl(Short, entry, bar.close), None))
      else None
    case RsiV2 =>
      if side == Long then
        if bar.close <= entry * (1.0 - StopLossFraction) then
          Some(Exit(Pnl(Long, entry, bar.close), Some(StopLossReason)))
        else if Gt(bar.rsi, Some(Overbought)) then
          Some(Exit(Pnl(Long, entry, bar.close), Some(TakeProfitLongReason)))
        else None
      else
        if bar.close >= entry * (1.0 + StopLossFraction) then
          Some(Exit(Pnl(Short, entry, bar.close), Some(StopLossReason)))
        else if Lt(bar.rsi, Some(Oversold)) then
          Some(Exit(Pnl(Short, entry, bar.close), Some(TakeProfitShortReason)))
        else None
  }

  /** Which side, if any, a flat engine opens at bar `i`. */
  function EntryOf(strategy: Strategy, bars: seq<Bar>, i: nat): (r: Option<Side>)
    requires Warmup(strategy) <= i < |bars|
    ensures strategy == RsiV1 ==>
      && (r == Some(Long) <==> Lt(bars[i].rsi, Some(Oversold)))
      && (r == Some(Short) <==> Gt(bars[i].rsi, Some(Overbought)))
    ensures strategy == EmaCross ==>
      && (r == Some(Long) <==> Le(bars[i - 1].emaFast, bars[i - 1].emaSlow) && Gt(bars[i].emaFast, bars[i].emaSlow))
      && (r == Some(Short) <==> Ge(bars[i - 1].emaFast, bars[i - 1].emaSlow) && Lt(bars[i].emaFast, bars[i].emaSlow))
    ensures strategy == RsiV2 && r.Some? ==> bars[i].ema200.Some? && bars[i].ema200.value != bars[i].close
  {
    var bar := bars[i];
    var prev := bars[i - 1];
    match strategy
    case RsiV1 =>
      if bar.rsi.None? then None
      else if bar.rsi.value < Oversold then Some(Long)
      else if bar.rsi.value > Overbought then Some(Short)
      else None
    case EmaCross =>
      if Le(prev.emaFast, prev.emaSlow) && Gt(bar.emaFast, bar.emaSlow) then Some(Long)
      else if Ge(prev.emaFast, prev.emaSlow) && Lt(bar.emaFast, bar.emaSlow) then Some(Short)
      else None
    case RsiV2 =>
      if Gt(Some(bar.close), bar.ema200) then
        if Lt(prev.rsi, Some(Oversold)) && Ge(bar.rsi, Some(Oversold)) then Some(Long) else None
      else if Lt(Some(bar.close), bar.ema200) then
        if Gt(prev.rsi, Some(Overbought)) && Le(bar.rsi, Some(Overbought)) then Some(Short) else None
      else None
  }

  /** One bar of the loop: for RSI v2 a bar with NaN RSI or EMA 200 is skipped; otherwise exit is
      checked first, and then, if flat, entry. */
  function StepSpec(strategy: Strategy, s: EngineState, bars: seq<Bar>, i: nat): (r: EngineState)
    requires Warmup(strategy) <= i < |bars| && PositiveCloses(bars) && Sane(s)
    ensures Sane(r)
    ensures |s.trades| <= |r.trades| <= |s.trades| + 1 && r.trades[..|s.trades|] == s.trades
    ensures |r.trades| == |s.trades| ==> r.balance == s.balance
    ensures |r.trades| == |s.trades| + 1 ==>
      && r.trades[|s.trades|].time == bars[i].time
      && r.balance == Ledger.Mul(s.balance, 1.0 + r.trades[|s.trades|].pnl)
  {
    var bar := bars[i];
    if strategy == RsiV2 && (bar.rsi.None? || bar.ema200.None?) then s
    else
      var exit := if s.position.Some? then ExitOf(strategy, bars, i, s.position.value, s.entryPrice) else None;
      var afterExit :=
        if exit.Some? then
          s.(position := None,
             balance := Ledger.Mul(s.balance, 1.0 + exit.value.pnl),
             trades := s.trades + [Trade(bar.time, exit.value.pnl, exit.value.reason)])
        else s;
      var entry := if afterExit.position.None? then EntryOf(strategy, bars, i) else None;
      if entry.Some? then afterExit.(position := entry, entryPrice := bar.close) else afterExit
  }

  /** The engine state after the loop has visited bars `0 .. n-1`. */
  function Simulate(strategy: Strategy, bars: seq<Bar>, n: nat): (r: EngineState)
    requires n <= |bars| && PositiveCloses(bars)
    ensures Sane(r)
    decreases n
  {
    if n == 0 then Start
    else
      var s := Simulate(strategy, bars, n - 1);
      if n - 1 < Warmup(strategy) then s else StepSpec(strategy, s, bars, n - 1)
  }

  /** The label `calculate_metrics` derives from the last one or two bars. */
  function CurrentSignal(strategy: Strategy, bars: seq<Bar>): (signal: string)
    requires |bars| >= 2
    ensures strategy == EmaCross ==> signal == "Hold (Bull)" || signal == "Hold (Bear)"
    ensures strategy == RsiV1 ==> signal in {"Buy (OverSold)", "Sell (OverBought)", "Hold"}
    ensures strategy == RsiV2 ==> signal in {"Buy (Trend Follow)", "Sell (Trend Follow)", "Hold"}
  {
    var last := bars[|bars| - 1];
    var prev := bars[|bars| - 2];
    match strategy
    case RsiV2 =>
      if Gt(Some(last.close), last.ema200) && Lt(prev.rsi, Some(Oversold)) && Ge(last.rsi, Some(Oversold)) then
        "Buy (Trend Follow)"
      else if Lt(Some(last.close), last.ema200) && Gt(prev.rsi, Some(Overbought)) && Le(last.rsi, Some(Overbought)) then
        "Sell (Trend Follow)"
      else "Hold"
    case RsiV1 =>
      if Lt(last.rsi, Some(Oversold)) then "Buy (OverSold)"
      else if Gt(last.rsi, Some(Overbought)) then "Sell (OverBought)"
      else "Hold"
    case EmaCross =>
      if Gt(last.emaFast, last.emaSlow) then "Hold (Bull)" else "Hold (Bear)"
  }

  function Pnls(trades: seq<Trade>): (ps: seq<real>)
    ensures |ps| == |trades| && forall k :: 0 <= k < |trades| ==> ps[k] == trades[k].pnl
  {
    seq(|trades|, k requires 0 <= k < |trades| => trades[k].pnl)
  }

  /** `calculate_metrics`: return from the final balance, win rate and count from the trades. */
  function CalculateMetrics(balance: real, trades: seq<Trade>, bars: seq<Bar>, strategy: Strategy): (m: Metrics)
    requires |bars| >= 2
    ensures m.returnPct == Ledger.ReturnPct(balance)
    ensures m.trades == |trades| && m.history == trades
    ensures 0.0 <= m.winRate <= 100.0 && (trades == [] ==> m.winRate == 0.0)
    ensures m.lastPrice == bars[|bars| - 1].close
  {
    Metrics(
      Ledger.ReturnPct(balance),
      Ledger.WinRate(Pnls(trades)),
      |trades|,
      trades,
      CurrentSignal(strategy, bars),
      bars[|bars| - 1].close)
  }

  /** What one run of a strategy over a series reports: nothing for fewer than 200 bars. */
  function Outcome(strategy: Strategy, bars: seq<Bar>): (r: Option<Metrics>)
    requires PositiveCloses(bars)
    ensures r.None? <==> |bars| < MinBars
  {
    if |bars| < MinBars then None
    else
      var s := Simulate(strategy, bars, |bars|);
      Some(CalculateMetrics(s.balance, s.trades, bars, strategy))
  }

  /** The engine's mutable variables, updated bar by bar. */
  class Engine {
    const strategy: Strategy
    var position: Option<Side>
    var entryPrice: real
    var balance: real
    var trades: seq<Trade>

    function State(): EngineState
      reads this
    {
      EngineState(position, entryPrice, balance, trades)
    }

    constructor (strategy: Strategy)
      ensures this.strategy == strategy && State() == Start
    {
      this.strategy := strategy;
      position := None;
      entryPrice := 0.0;
      balance := Ledger.InitialBalance;
      trades := [];
    }

    /** The body of the backtest loop for bar `i`. */
    method Step(bars: seq<Bar>, i: nat)
      requires Warmup(strategy) <= i < |bars| && PositiveCloses(bars) && Sane(State())
      modifies this
      ensures State() == StepSpec(strategy, old(State()), bars, i)
    {
      var bar := bars[i];
      if strategy == RsiV2 && (bar.rsi.None? || bar.ema200.None?) {
        return;
      }
      if position.Some? {
        var exit := ExitOf(strategy, bars, i, position.value, entryPrice);
        if exit.Some? {
          assert balance * (1.0 + exit.value.pnl) == Ledger.Mul(balance, 1.0 + exit.value.pnl);
          balance := balance * (1.0 + exit.value.pnl);
          trades := trades + [Trade(bar.time, exit.value.pnl, exit.value.reason)];
          position := None;
        }
      }
      if position.None? {
        var entry := EntryOf(strategy, bars, i);
        if entry.Some? {
          position := entry;
          entryPrice := bar.close;
        }
      }
    }

    /** The backtest loop: steps every bar from the warm-up index on. */
    method Walk(bars: seq<Bar>)
      requires PositiveCloses(bars) && State() == Start
      modifies this
      ensures State() == Simulate(strategy, bars, |bars|)
    {
      var i := 0;
      while i < |bars|
        invariant 0 <= i <= |bars|
        invariant State() == Simulate(strategy, bars, i)
      {
        if i >= Warmup(strategy) {
          Step(bars, i);
        }
        i := i + 1;
      }
    }
  }

  /** `run_strategy` (RSI v1, EMA) and `run_strategy_rsi_v2`: refuse short series, walk the bars
      once from the warm-up index, and report the metrics of the final state. */
  method Run(strategy: Strategy, bars: seq<Bar>) returns (r: Option<Metrics>)
    requires PositiveCloses(bars)
    ensures r == Outcome(strategy, bars)
    ensures r.None? <==> |bars| < MinBars
  {
    if |bars| < MinBars {
      return None;
    }
    var engine := new Engine(strategy);
    engine.Walk(bars);
    r := Some(CalculateMetrics(engine.balance, engine.trades, bars, strategy));
  }
}
