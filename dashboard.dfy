/** The dashboard's re-aggregation of stored backtest rows: `recalculate` keeps the trades of a
    row's history that fall in the chosen window and replays them from the initial capital; the
    summary pools the rows into a trade-weighted win rate and a fee-adjusted compounded
    balance. */
module Dashboard {
  import opened Options
  import opened Calendar
  import Ledger
  import opened Windows
  import PeriodLists

  /** A trade as stored in `trade_history`: its time, `None` when it cannot be parsed, and its
      fractional return. */
  datatype StoredTrade = StoredTrade(time: Option<DateTime>, pnl: real)

  /** The columns of a result row that the dashboard reads or rewrites. `history` is `None` when
      the row has no `trade_history` or it is not a list. */
  datatype Row = Row(returnPct: real, winRate: real, trades: nat, history: Option<seq<StoredTrade>>)

  /** Whether `recalculate` keeps a trade: its time parses and lies in the window. */
  predicate Keeps(f: Filter, t: StoredTrade) {
    t.time.Some? && Includes(f, t.time.value)
  }

  /** The trades kept from a history, in their stored order. */
  function Kept(h: seq<StoredTrade>, f: Filter): (k: seq<StoredTrade>)
    ensures |k| <= |h|
    ensures k == [] <==> forall i :: 0 <= i < |h| ==> !Keeps(f, h[i])
    decreases |h|
  {
    if h == [] then []
    else
      assert forall i :: 0 <= i < |h| - 1 ==> h[..|h| - 1][i] == h[i];
      Kept(h[..|h| - 1], f) + (if Keeps(f, h[|h| - 1]) then [h[|h| - 1]] else [])
  }

  /** The returns of stored trades. This is the stored-record counterpart of `Backtest.Pnls`,
      kept separate on purpose: a stored trade carries an optional parsed time, a simulated
      trade a definite one, so the two take different element types. */
  function StoredPnls(ts: seq<StoredTrade>): (ps: seq<real>)
    ensures |ps| == |ts| && forall k :: 0 <= k < |ts| ==> ps[k] == ts[k].pnl
  {
    seq(|ts|, k requires 0 <= k < |ts| => ts[k].pnl)
  }

  /** The row after `recalculate`: unchanged without a history; otherwise return, win rate and
      trade count are those of a replay of the kept trades, and the history is kept as stored. */
  function Reaggregate(row: Row, f: Filter): (r: Row)
    ensures r.history == row.history
    ensures row.history.None? ==> r == row
    ensures row.history.Some? ==>
      var kept := StoredPnls(Kept(row.history.value, f));
      && r.returnPct == Ledger.ReturnPct(Ledger.Mul(Ledger.InitialBalance, Ledger.Growth(kept)))
      && r.winRate == Ledger.WinRate(kept) && 0.0 <= r.winRate <= 100.0
      && r.trades == |kept| <= |row.history.value|
  {
    match row.history
    case None => row
    case Some(h) =>
      var kept := StoredPnls(Kept(h, f));
      Ledger.ReplayIsScaledGrowth(Ledger.InitialBalance, kept);
      var s := Ledger.Aggregate(kept);
      Row(s.returnPct, s.winRate, s.trades, row.history)
  }

  /** `recalculate`: filter the history into a new list, then compound the kept returns. */
  method Recalculate(row: Row, f: Filter) returns (r: Row)
    ensures r == Reaggregate(row, f)
  {
    if row.history.None? {
      return row;
    }
    var kept := FilterTrades(row.history.value, f);
    var balance := ReplayTrades(kept);
    var pnls := StoredPnls(kept);
    r := Row(Ledger.ReturnPct(balance), Ledger.WinRate(pnls), |kept|, row.history);
  }

  /** The filtering loop of `recalculate`: the trades whose time parses and lies in the window,
      in stored order. */
  method FilterTrades(h: seq<StoredTrade>, f: Filter) returns (kept: seq<StoredTrade>)
    ensures kept == Kept(h, f)
  {
    kept := [];
    var i := 0;
    while i < |h|
      invariant 0 <= i <= |h|
      invariant kept == Kept(h[..i], f)
    {
      assert h[..i + 1][..i] == h[..i];
      if h[i].time.Some? && Includes(f, h[i].time.value) {
        kept := kept + [h[i]];
      }
      i := i + 1;
    }
    assert h[..|h|] == h;
  }

  /** The replay loop of `recalculate`: `balance *= (1 + pnl)` from the initial capital. */
  method ReplayTrades(kept: seq<StoredTrade>) returns (balance: real)
    ensures balance == Ledger.Replay(Ledger.InitialBalance, StoredPnls(kept))
  {
    ghost var pnls := StoredPnls(kept);
    balance := Ledger.InitialBalance;
    var j := 0;
    while j < |kept|
      invariant 0 <= j <= |kept|
      invariant balance == Ledger.Replay(Ledger.InitialBalance, pnls[..j])
    {
      assert pnls[..j + 1] == pnls[..j] + [kept[j].pnl];
      Ledger.ReplaySnoc(Ledger.InitialBalance, pnls[..j], kept[j].pnl);
      assert balance * (1.0 + kept[j].pnl) == Ledger.Mul(balance, 1.0 + kept[j].pnl);
      balance := balance * (1.0 + kept[j].pnl);
      j := j + 1;
    }
    assert pnls[..|kept|] == pnls;
  }

  /** A trade is kept exactly when it is in the history and in the window. */
  lemma {:induction false} KeptMembers(h: seq<StoredTrade>, f: Filter)
    ensures forall t :: t in Kept(h, f) <==> t in h && Keeps(f, t)
    decreases |h|
  {
    if h != [] {
      var init := h[..|h| - 1];
      assert h == init + [h[|h| - 1]];
      KeptMembers(init, f);
    }
  }

  /** Filtering commutes with concatenation, so the kept list preserves the stored order. */
  lemma {:induction false} KeptAppend(a: seq<StoredTrade>, b: seq<StoredTrade>, f: Filter)
    ensures Kept(a + b, f) == Kept(a, f) + Kept(b, f)
    decreases |b|
  {
    if b == [] {
      assert a + b == a;
    } else {
      var init := b[..|b| - 1];
      var last := b[|b| - 1];
      assert (a + b)[..|a + b| - 1] == a + init;
      assert (a + b)[|a + b| - 1] == last;
      KeptAppend(a, init, f);
    }
  }

  /** A window that holds every trade keeps the whole history. */
  lemma {:induction false} KeptAll(h: seq<StoredTrade>, f: Filter)
    requires forall k :: 0 <= k < |h| ==> Keeps(f, h[k])
    ensures Kept(h, f) == h
    decreases |h|
  {
    if h != [] {
      var init := h[..|h| - 1];
      assert forall k :: 0 <= k < |init| ==> init[k] == h[k];
      KeptAll(init, f);
      assert h == init + [h[|h| - 1]];
    }
  }

  /** With no trade in the window the row reports 0 / 0 / 0. */
  lemma EmptyWindowGivesZero(row: Row, f: Filter)
    requires row.history.Some?
    requires forall k :: 0 <= k < |row.history.value| ==> !Keeps(f, row.history.value[k])
    ensures var r := Reaggregate(row, f); r.returnPct == 0.0 && r.winRate == 0.0 && r.trades == 0
  {
  }

  // ---------------------------------------------------------------------------------------
  // Summary over the filtered rows

  /** `filtered_df['trades'].sum()`. */
  function TotalTrades(rows: seq<Row>): (n: nat)
    ensures forall k :: 0 <= k < |rows| ==> rows[k].trades <= n
    ensures n == 0 <==> forall k :: 0 <= k < |rows| ==> rows[k].trades == 0
    decreases |rows|
  {
    if rows == [] then 0
    else
      assert forall k :: 0 <= k < |rows| - 1 ==> rows[..|rows| - 1][k] == rows[k];
      TotalTrades(rows[..|rows| - 1]) + rows[|rows| - 1].trades
  }

  /** `(filtered_df['win_rate'] * filtered_df['trades']).sum()`. */
  function WeightedWins(rows: seq<Row>): (w: real)
    ensures TotalTrades(rows) == 0 ==> w == 0.0
    ensures (forall k :: 0 <= k < |rows| ==> rows[k].winRate >= 0.0) ==> w >= 0.0
    decreases |rows|
  {
    if rows == [] then 0.0
    else
      assert forall k :: 0 <= k < |rows| - 1 ==> rows[..|rows| - 1][k] == rows[k];
      var last := rows[|rows| - 1];
      Ledger.MulNonNegative(last.winRate, last.trades as real);
      WeightedWins(rows[..|rows| - 1]) + Ledger.Mul(last.winRate, last.trades as real)
  }

  /** The trade-weighted average win rate, 0 when there are no trades. */
  function WeightedWinRate(rows: seq<Row>): (r: real)
    ensures TotalTrades(rows) == 0 ==> r == 0.0
    ensures TotalTrades(rows) > 0 ==> Ledger.Mul(r, TotalTrades(rows) as real) == WeightedWins(rows)
  {
    var n := TotalTrades(rows);
    if n > 0 then QuotientTimes(WeightedWins(rows), n as real); WeightedWins(rows) / n as real else 0.0
  }

  lemma QuotientTimes(x: real, n: real)
    requires n > 0.0
    ensures Ledger.Mul(x / n, n) == x
  {
  }

  /** Rows whose win rates are percentages give a percentage. */
  lemma WeightedWinRateBounds(rows: seq<Row>)
    requires forall k :: 0 <= k < |rows| ==> 0.0 <= rows[k].winRate <= 100.0
    ensures 0.0 <= WeightedWinRate(rows) <= 100.0
  {
    WeightedWinsBounds(rows);
    if TotalTrades(rows) > 0 {
      PercentRatio(WeightedWins(rows), TotalTrades(rows) as real);
    }
  }

  lemma {:induction false} WeightedWinsBounds(rows: seq<Row>)
    requires forall k :: 0 <= k < |rows| ==> 0.0 <= rows[k].winRate <= 100.0
    ensures 0.0 <= WeightedWins(rows) <= 100.0 * TotalTrades(rows) as real
    decreases |rows|
  {
    if rows != [] {
      var init := rows[..|rows| - 1];
      var last := rows[|rows| - 1];
      assert forall k :: 0 <= k < |init| ==> init[k] == rows[k];
      WeightedWinsBounds(init);
      ScaledBounds(last.winRate, last.trades as real);
    }
  }

  lemma PercentRatio(x: real, n: real)
    requires n > 0.0 && 0.0 <= x <= 100.0 * n
    ensures 0.0 <= x / n <= 100.0
  {
  }

  lemma ScaledBounds(w: real, n: real)
    requires 0.0 <= w <= 100.0 && n >= 0.0
    ensures 0.0 <= Ledger.Mul(w, n) <= 100.0 * n
  {
    NonNegativeProduct(w, n);
    NonNegativeProduct(100.0 - w, n);
    assert (100.0 - w) * n == 100.0 * n - w * n;
  }

  lemma NonNegativeProduct(a: real, b: real)
    requires a >= 0.0 && b >= 0.0
    ensures a * b >= 0.0
  {
  }

  /** All returns of a list of rows, in row order. */
  function Concat(parts: seq<seq<real>>): seq<real>
    decreases |parts|
  {
    if parts == [] then [] else Concat(parts[..|parts| - 1]) + parts[|parts| - 1]
  }

  /** When every row reports the win rate and count of its own trade returns, the weighted
      win rate is the win rate of all those trades pooled together. */
  lemma WeightedWinRateIsPooled(rows: seq<Row>, parts: seq<seq<real>>)
    requires |rows| == |parts|
    requires forall k :: 0 <= k < |rows| ==>
      rows[k].winRate == Ledger.WinRate(parts[k]) && rows[k].trades == |parts[k]|
    ensures WeightedWinRate(rows) == Ledger.WinRate(Concat(parts))
  {
    forall k | 0 <= k < |rows|
      ensures WinsAccounted(rows[k], parts[k])
    {
      RowWins(rows[k], parts[k]);
    }
    PooledTotal(rows, parts);
    PooledWins(rows, parts);
    var all := Concat(parts);
    if |all| > 0 {
      Ledger.WinRateTimesCount(all);
      DivideBack(WeightedWins(rows), TotalTrades(rows) as real, Ledger.WinRate(all));
    }
  }

  /** A row's win rate times its count is 100 times its winning trades. */
  lemma RowWins(row: Row, part: seq<real>)
    requires row.winRate == Ledger.WinRate(part) && row.trades == |part|
    ensures WinsAccounted(row, part)
  {
    Ledger.WinRateTimesCount(part);
  }

  lemma DivideBack(x: real, n: real, r: real)
    requires n > 0.0 && Ledger.Mul(r, n) == x
    ensures x / n == r
  {
  }

  lemma {:induction false} PooledTotal(rows: seq<Row>, parts: seq<seq<real>>)
    requires |rows| == |parts|
    requires forall k :: 0 <= k < |rows| ==> rows[k].trades == |parts[k]|
    ensures TotalTrades(rows) == |Concat(parts)|
    decreases |rows|
  {
    if rows != [] {
      var m := |rows| - 1;
      var initRows, initParts := rows[..m], parts[..m];
      assert forall k :: 0 <= k < m ==> initRows[k] == rows[k] && initParts[k] == parts[k];
      PooledTotal(initRows, initParts);
    }
  }

  /** A row's weighted win rate accounts for the winning trades of its returns. */
  predicate WinsAccounted(row: Row, part: seq<real>) {
    Ledger.Mul(row.winRate, row.trades as real) == 100.0 * Ledger.WinCount(part) as real
  }

  lemma {:induction false} PooledWins(rows: seq<Row>, parts: seq<seq<real>>)
    requires |rows| == |parts|
    requires forall k :: 0 <= k < |rows| ==> WinsAccounted(rows[k], parts[k])
    ensures WeightedWins(rows) == 100.0 * Ledger.WinCount(Concat(parts)) as real
    decreases |rows|
  {
    if rows != [] {
      var initRows, initParts := rows[..|rows| - 1], parts[..|parts| - 1];
      var last, lastPart := rows[|rows| - 1], parts[|parts| - 1];
      assert WeightedWins(rows) == WeightedWins(initRows) + 100.0 * Ledger.WinCount(lastPart) as real by {
        assert WinsAccounted(last, lastPart);
      }
      assert WeightedWins(initRows) == 100.0 * Ledger.WinCount(Concat(initParts)) as real by {
        assert forall k :: 0 <= k < |initRows| ==> initRows[k] == rows[k] && initParts[k] == parts[k];
        PooledWins(initRows, initParts);
      }
      assert Ledger.WinCount(Concat(parts)) == Ledger.WinCount(Concat(initParts)) + Ledger.WinCount(lastPart) by {
        assert Concat(parts) == Concat(initParts) + lastPart;
        Ledger.WinCountAppend(Concat(initParts), lastPart);
      }
    }
  }

  /** Per-trade share of a row's return: `return / 100 / trades`, 0 without trades. */
  function PerTradeReturn(row: Row): (r: real)
    ensures row.trades == 0 ==> r == 0.0
    ensures row.trades > 0 ==> Ledger.Mul(r, row.trades as real) == row.returnPct / 100.0
  {
    if row.trades > 0 then row.returnPct / 100.0 / row.trades as real else 0.0
  }

  /** The round-trip fee, 0.1% per trade. */
  const FeePerTrade: real := 0.001

  /** The share of a balance left after paying the fee once. */
  const AfterFee: real := 1.0 - FeePerTrade

  /** What one of the row's trades multiplies the balance by, without the fee. */
  function Gain(row: Row): (g: real)
    ensures row.trades == 0 ==> g == 1.0
    ensures row.trades > 0 ==> Ledger.Mul(g - 1.0, row.trades as real) == row.returnPct / 100.0
  {
    1.0 + PerTradeReturn(row)
  }

  /** What one of the row's trades multiplies the balance by once the fee is paid. */
  function GainAfterFee(row: Row): (g: real)
    ensures Gain(row) >= 0.0 ==> 0.0 <= g <= Gain(row)
    ensures Gain(row) > 0.0 ==> g < Gain(row)
  {
    Ledger.Mul(Gain(row), AfterFee)
  }

  function Pow(x: real, n: nat): real
    decreases n
  {
    if n == 0 then 1.0 else Ledger.Mul(Pow(x, n - 1), x)
  }

  /** `balance` multiplied by `g` once per step, `n` steps. */
  function Compounded(balance: real, g: real, n: nat): real
    decreases n
  {
    if n == 0 then balance else Ledger.Mul(Compounded(balance, g, n - 1), g)
  }

  /** The balance after the rows, in order, each compounding its per-trade gain (with the fee
      when `charged`) once per trade. */
  function Grown(balance: real, rows: seq<Row>, charged: bool): (r: real)
    ensures TotalTrades(rows) == 0 ==> r == balance
    decreases |rows|
  {
    if |rows| == 0 then balance
    else
      var last := rows[|rows| - 1];
      Compounded(Grown(balance, rows[..|rows| - 1], charged), if charged then GainAfterFee(last) else Gain(last), last.trades)
  }

  /** The summary's compounding loop, without and with the fee. The fee-adjusted balance is the
      fee-free one charged 0.1% once per trade. */
  method FeeAdjustedBalances(rows: seq<Row>) returns (noFee: real, withFee: real)
    ensures noFee == Grown(Ledger.InitialBalance, rows, false)
    ensures withFee == Grown(Ledger.InitialBalance, rows, true)
    ensures withFee == Ledger.Mul(noFee, Pow(AfterFee, TotalTrades(rows)))
  {
    noFee := Ledger.InitialBalance;
    withFee := Ledger.InitialBalance;
    var i := 0;
    while i < |rows|
      invariant 0 <= i <= |rows|
      invariant noFee == Grown(Ledger.InitialBalance, rows[..i], false)
      invariant withFee == Grown(Ledger.InitialBalance, rows[..i], true)
    {
      noFee, withFee := CompoundRow(noFee, withFee, rows[i]);
      assert rows[..i + 1][..i] == rows[..i];
      i := i + 1;
    }
    assert rows[..|rows|] == rows;
    FeeIsChargedPerTrade(Ledger.InitialBalance, rows);
  }

  /** The inner loop for one row: once per trade, both balances grow by the row's per-trade
      return, and the fee-adjusted one also pays the fee. */
  method CompoundRow(noFee0: real, withFee0: real, row: Row) returns (noFee: real, withFee: real)
    ensures noFee == Compounded(noFee0, Gain(row), row.trades)
    ensures withFee == Compounded(withFee0, GainAfterFee(row), row.trades)
  {
    noFee, withFee := noFee0, withFee0;
    var g := 1.0 + PerTradeReturn(row);
    var j := 0;
    while j < row.trades
      invariant 0 <= j <= row.trades
      invariant noFee == Compounded(noFee0, Gain(row), j)
      invariant withFee == Compounded(withFee0, GainAfterFee(row), j)
    {
      noFee := noFee * g;
      withFee := withFee * (g * (1.0 - FeePerTrade));
      j := j + 1;
    }
  }

  /** Charging the fee on every trade is charging `(1 - fee)^trades` on the fee-free balance. */
  lemma {:induction false} FeeIsChargedPerTrade(balance: real, rows: seq<Row>)
    ensures Grown(balance, rows, true) == Ledger.Mul(Grown(balance, rows, false), Pow(AfterFee, TotalTrades(rows)))
    decreases |rows|
  {
    if |rows| != 0 {
      var init, last := rows[..|rows| - 1], rows[|rows| - 1];
      FeeIsChargedPerTrade(balance, init);
      CompoundedCharged(Grown(balance, init, false), Gain(last), Pow(AfterFee, TotalTrades(init)), last.trades);
      PowOfSum(AfterFee, TotalTrades(init), last.trades, TotalTrades(rows));
    }
  }

  /** Compounding a charged balance with a charged factor is compounding, then charging. */
  lemma {:induction false} CompoundedCharged(x: real, g: real, p: real, t: nat)
    ensures Compounded(Ledger.Mul(x, p), Ledger.Mul(g, AfterFee), t) == Ledger.Mul(Compounded(x, g, t), Ledger.Mul(p, Pow(AfterFee, t)))
    decreases t
  {
    if t > 0 {
      CompoundedCharged(x, g, p, t - 1);
      Regroup(Compounded(x, g, t - 1), p, Pow(AfterFee, t - 1), g, AfterFee);
    }
  }

  lemma Regroup(a: real, p: real, q: real, g: real, c: real)
    ensures Ledger.Mul(Ledger.Mul(a, Ledger.Mul(p, q)), Ledger.Mul(g, c)) == Ledger.Mul(Ledger.Mul(a, g), Ledger.Mul(p, Ledger.Mul(q, c)))
  {
  }

  lemma {:induction false} PowOfSum(x: real, a: nat, b: nat, m: nat)
    requires m == a + b
    ensures Pow(x, m) == Ledger.Mul(Pow(x, a), Pow(x, b))
    decreases b
  {
    if b > 0 {
      PowOfSum(x, a, b - 1, m - 1);
      Ledger.Associate(Pow(x, a), Pow(x, b - 1), x);
    }
  }

  /** 0.999 to any power lies in (0, 1], and below 1 once there is a trade. */
  lemma {:induction false} FeeFactorBounds(n: nat)
    ensures 0.0 < Pow(AfterFee, n) <= 1.0
    ensures n > 0 ==> Pow(AfterFee, n) < 1.0
    decreases n
  {
    if n > 0 {
      FeeFactorBounds(n - 1);
      ProductBelowOne(Pow(AfterFee, n - 1), AfterFee);
    }
  }

  lemma ProductBelowOne(x: real, y: real)
    requires 0.0 < x <= 1.0 && 0.0 < y < 1.0
    ensures 0.0 < x * y < 1.0
  {
  }

  /** The fee never raises a non-negative balance, and lowers a positive one as soon as there
      is a trade: the total fee `before - after` is never negative. */
  lemma FeeNeverRaises(rows: seq<Row>)
    requires Grown(Ledger.InitialBalance, rows, false) >= 0.0
    ensures 0.0 <= Grown(Ledger.InitialBalance, rows, true) <= Grown(Ledger.InitialBalance, rows, false)
    ensures Grown(Ledger.InitialBalance, rows, false) > 0.0 && TotalTrades(rows) > 0
        ==> Grown(Ledger.InitialBalance, rows, true) < Grown(Ledger.InitialBalance, rows, false)
  {
    FeeIsChargedPerTrade(Ledger.InitialBalance, rows);
    FeeFactorBounds(TotalTrades(rows));
    ScaleDown(Grown(Ledger.InitialBalance, rows, false), Pow(AfterFee, TotalTrades(rows)));
  }

  lemma ScaleDown(b: real, p: real)
    requires b >= 0.0 && 0.0 < p <= 1.0
    ensures 0.0 <= Ledger.Mul(b, p) <= b
    ensures b > 0.0 && p < 1.0 ==> Ledger.Mul(b, p) < b
  {
  }

  /** The parsed times of one stored history, in its order; times that do not parse are
      skipped. */
  function ParsedTimes(h: seq<StoredTrade>): (ts: seq<DateTime>)
    ensures |ts| <= |h|
    ensures forall t :: t in ts <==> exists j :: 0 <= j < |h| && h[j].time == Some(t)
    decreases |h|
  {
    if h == [] then []
    else
      assert forall j :: 0 <= j < |h| - 1 ==> h[..|h| - 1][j] == h[j];
      ParsedTimes(h[..|h| - 1]) + (if h[|h| - 1].time.Some? then [h[|h| - 1].time.value] else [])
  }

  /** The dates offered for a specific period: the parsed trade times of every row whose history
      is a list, row by row and in history order within a row. */
  function AllDates(rows: seq<Row>): (ds: seq<DateTime>)
    ensures forall t :: t in ds <==>
      exists k :: 0 <= k < |rows| && rows[k].history.Some? && t in ParsedTimes(rows[k].history.value)
    decreases |rows|
  {
    if rows == [] then []
    else
      assert forall k :: 0 <= k < |rows| - 1 ==> rows[..|rows| - 1][k] == rows[k];
      var last := rows[|rows| - 1];
      AllDates(rows[..|rows| - 1]) + (if last.history.Some? then ParsedTimes(last.history.value) else [])
  }

  /** Whether the `k`-th row holds, at position `j` of its history, a trade whose time parses. */
  predicate HasParsedTime(rows: seq<Row>, k: int, j: int) {
    0 <= k < |rows| && rows[k].history.Some? && 0 <= j < |rows[k].history.value|
    && rows[k].history.value[j].time.Some?
  }

  /** The nested gathering loop: every row, then every trade of a list history, appending the
      times that parse. */
  method GatherDates(rows: seq<Row>) returns (dates: seq<DateTime>)
    ensures dates == AllDates(rows)
  {
    dates := [];
    var k := 0;
    while k < |rows|
      invariant 0 <= k <= |rows|
      invariant dates == AllDates(rows[..k])
    {
      assert rows[..k + 1][..k] == rows[..k];
      if rows[k].history.Some? {
        var h := rows[k].history.value;
        var j := 0;
        var times: seq<DateTime> := [];
        while j < |h|
          invariant 0 <= j <= |h|
          invariant times == ParsedTimes(h[..j])
        {
          assert h[..j + 1][..j] == h[..j];
          if h[j].time.Some? {
            times := times + [h[j].time.value];
          }
          j := j + 1;
        }
        assert h[..j] == h;
        dates := dates + times;
      }
      k := k + 1;
    }
    assert rows[..k] == rows;
  }

  /** The range offered for a specific period: ordered, it bounds the parsed time of every trade
      of every list history, and it is `(now, now)` when no time parses. */
  lemma SpecificPeriodRange(rows: seq<Row>, now: DateTime)
    ensures var r := PeriodLists.DateRange(AllDates(rows), now);
      && LessEq(r.0, r.1)
      && (forall k, j :: HasParsedTime(rows, k, j) ==>
            LessEq(r.0, rows[k].history.value[j].time.value) && LessEq(rows[k].history.value[j].time.value, r.1))
      && ((forall k, j :: !HasParsedTime(rows, k, j)) ==> r == (now, now))
  {
    var ds := AllDates(rows);
    var r := PeriodLists.DateRange(ds, now);
    forall k, j | HasParsedTime(rows, k, j)
      ensures LessEq(r.0, rows[k].history.value[j].time.value) && LessEq(rows[k].history.value[j].time.value, r.1)
    {
      var t := rows[k].history.value[j].time.value;
      assert t in ParsedTimes(rows[k].history.value);
      assert t in ds;
    }
    if ds != [] {
      var t := ds[0];
      assert t in ds;
      var k :| 0 <= k < |rows| && rows[k].history.Some? && t in ParsedTimes(rows[k].history.value);
      var j :| 0 <= j < |rows[k].history.value| && rows[k].history.value[j].time == Some(t);
      assert HasParsedTime(rows, k, j);
    }
  }
}
