/** The arithmetic that turns a list of trade returns into metrics. `calculate_metrics` in
    batch_analyzer.py and `recalculate` in dashboard.py both write it out; it is defined once
    here and both models use it. */
module Ledger {

  /** The starting capital of every run and every replay. */
  const InitialBalance: real := 1000000.0

  /** Real multiplication under a name. Balances and growth factors are multiplied through it,
      so that proofs about them rewrite products as terms rather than as arithmetic. */
  function Mul(a: real, b: real): real {
    a * b
  }

  /** `balance *= (1 + pnl)` for each return in order, starting from `balance`. */
  function Replay(balance: real, pnls: seq<real>): (r: real)
    ensures (forall k :: 0 <= k < |pnls| ==> pnls[k] == 0.0) ==> r == balance
    ensures balance >= 0.0 && (forall k :: 0 <= k < |pnls| ==> pnls[k] >= -1.0) ==> r >= 0.0
    decreases |pnls|
  {
    if |pnls| == 0 then balance
    else
      assert forall k :: 0 <= k < |pnls| - 1 ==> pnls[..|pnls| - 1][k] == pnls[k];
      MulNonNegative(Replay(balance, pnls[..|pnls| - 1]), 1.0 + pnls[|pnls| - 1]);
      Mul(Replay(balance, pnls[..|pnls| - 1]), 1.0 + pnls[|pnls| - 1])
  }

  /** The compounded growth factor: the product of `1 + pnl` over all returns. */
  function Growth(pnls: seq<real>): real
    decreases |pnls|
  {
    if |pnls| == 0 then 1.0 else Mul(1.0 + pnls[0], Growth(pnls[1..]))
  }

  /** `(balance - initial) / initial * 100`. */
  function ReturnPct(balance: real): (r: real)
    ensures r == 0.0 <==> balance == InitialBalance
    ensures r > 0.0 <==> balance > InitialBalance
  {
    (balance - InitialBalance) / InitialBalance * 100.0
  }

  /** The number of winning trades: those with a strictly positive return. */
  function WinCount(pnls: seq<real>): (n: nat)
    ensures n <= |pnls|
    ensures n == |pnls| <==> forall k :: 0 <= k < |pnls| ==> pnls[k] > 0.0
    ensures n == 0 <==> forall k :: 0 <= k < |pnls| ==> pnls[k] <= 0.0
    decreases |pnls|
  {
    if |pnls| == 0 then 0
    else
      var rest := WinCount(pnls[1..]);
      assert forall k :: 1 <= k < |pnls| ==> pnls[1..][k - 1] == pnls[k];
      (if pnls[0] > 0.0 then 1 else 0) + rest
  }

  /** `len(wins) / len(trades) * 100`, and 0 when there are no trades. */
  function WinRate(pnls: seq<real>): (r: real)
    ensures 0.0 <= r <= 100.0
    ensures |pnls| == 0 ==> r == 0.0
    ensures r == 100.0 <==> |pnls| > 0 && forall k :: 0 <= k < |pnls| ==> pnls[k] > 0.0
  {
    if |pnls| == 0 then 0.0
    else
      var w := WinCount(pnls) as real;
      var n := |pnls| as real;
      FractionBounds(w, n);
      w / n * 100.0
  }

  /** The three numbers a replay reports: return in percent, win rate in percent, trade count. */
  datatype Summary = Summary(returnPct: real, winRate: real, trades: nat)

  /** Replays `pnls` from the initial capital and reports the metrics. */
  function Aggregate(pnls: seq<real>): (s: Summary)
    ensures s.trades == |pnls|
    ensures 0.0 <= s.winRate <= 100.0
    ensures pnls == [] ==> s == Summary(0.0, 0.0, 0)
  {
    Summary(ReturnPct(Replay(InitialBalance, pnls)), WinRate(pnls), |pnls|)
  }

  // ---------------------------------------------------------------------------------------

  lemma {:induction false} GrowthSnoc(pnls: seq<real>, p: real)
    ensures Growth(pnls + [p]) == Mul(Growth(pnls), 1.0 + p)
    decreases |pnls|
  {
    if |pnls| == 0 {
      assert pnls + [p] == [p];
    } else {
      assert (pnls + [p])[1..] == pnls[1..] + [p];
      GrowthSnoc(pnls[1..], p);
      Associate(1.0 + pnls[0], Growth(pnls[1..]), 1.0 + p);
    }
  }

  /** Replaying from a balance multiplies it by the compounded growth: the final balance of a
      run is `1,000,000 * (1 + pnl_1) * ... * (1 + pnl_n)`. */
  lemma {:induction false} ReplayIsScaledGrowth(balance: real, pnls: seq<real>)
    ensures Replay(balance, pnls) == Mul(balance, Growth(pnls))
    decreases |pnls|
  {
    if |pnls| > 0 {
      var init := pnls[..|pnls| - 1];
      var last := pnls[|pnls| - 1];
      assert pnls == init + [last];
      ReplayIsScaledGrowth(balance, init);
      GrowthSnoc(init, last);
      Associate(balance, Growth(init), 1.0 + last);
    }
  }

  /** Replaying one more return multiplies the balance by `1 + pnl`. */
  lemma ReplaySnoc(balance: real, pnls: seq<real>, p: real)
    ensures Replay(balance, pnls + [p]) == Mul(Replay(balance, pnls), 1.0 + p)
  {
    assert (pnls + [p])[..|pnls + [p]| - 1] == pnls;
  }

  lemma {:induction false} WinCountAppend(a: seq<real>, b: seq<real>)
    ensures WinCount(a + b) == WinCount(a) + WinCount(b)
    decreases |a|
  {
    if |a| == 0 {
      assert a + b == b;
    } else {
      assert (a + b)[1..] == a[1..] + b;
      WinCountAppend(a[1..], b);
    }
  }

  /** The win rate times the trade count is 100 times the number of wins. */
  lemma WinRateTimesCount(pnls: seq<real>)
    ensures Mul(WinRate(pnls), |pnls| as real) == 100.0 * WinCount(pnls) as real
  {
    if |pnls| > 0 {
      FractionTimes(WinCount(pnls) as real, |pnls| as real, WinRate(pnls));
    } else {
      ZeroTimes(WinRate(pnls), |pnls| as real, WinCount(pnls) as real);
    }
  }

  // Small facts of real arithmetic, kept apart so that each proof sees only its own terms.

  lemma Associate(x: real, y: real, z: real)
    ensures Mul(Mul(x, y), z) == Mul(x, Mul(y, z))
  {
  }

  lemma MulNonNegative(x: real, y: real)
    ensures x >= 0.0 && y >= 0.0 ==> Mul(x, y) >= 0.0
  {
  }

  lemma FractionBounds(w: real, n: real)
    requires 0.0 <= w <= n && n > 0.0
    ensures 0.0 <= w / n <= 1.0
    ensures w / n == 1.0 <==> w == n
  {
  }

  lemma ZeroTimes(r: real, n: real, w: real)
    requires r == 0.0 && n == 0.0 && w == 0.0
    ensures Mul(r, n) == 100.0 * w
  {
  }

  lemma FractionTimes(w: real, n: real, r: real)
    requires n > 0.0 && r == w / n * 100.0
    ensures Mul(r, n) == 100.0 * w
  {
  }
}
