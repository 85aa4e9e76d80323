/** high_low.py: a long-only N-bar breakout machine on one unit with a cash
    balance, and the grid search for the window length n. */
module HighLow {
  import opened Market

  const InitialCash: real := 10000.0

  /** `cash`, `position` and `entry_price`. */
  datatype HState = HState(cash: real, position: int, entryPrice: real)

  /** The state after a prefix of bars and the P&L of each sell so far. */
  datatype HTrace = HTrace(state: HState, pnls: seq<real>)

  const Start := HState(InitialCash, 0, 0.0)

  /** `Low.iloc[i-n:i].min()` and `High.iloc[i-n:i].max()`: bars i-n..i-1,
      bar i excluded; NaN when the window is empty. */
  function LowestLow(bars: seq<Bar>, n: nat, i: nat): Option<real>
    requires n <= i <= |bars|
  {
    MinOf(Lows(bars, i - n, i))
  }

  function HighestHigh(bars: seq<Bar>, n: nat, i: nat): Option<real>
    requires n <= i <= |bars|
  {
    MaxOf(Highs(bars, i - n, i))
  }

  /** The state after a bar and the P&L of its sell, if any. */
  datatype HOut = HOut(state: HState, pnl: Option<real>)

  /** One iteration at bar i: buy one unit at the close when flat and the
      close is below the window's lowest Low; otherwise sell when long and
      the close is above the window's highest High, booking the P&L into
      cash. */
  function Step(s: HState, bars: seq<Bar>, n: nat, i: nat): (o: HOut)
    requires n <= i < |bars|
    ensures 0 <= s.position <= 1 ==> 0 <= o.state.position <= 1
  {
    var close := bars[i].close;
    if Below(close, LowestLow(bars, n, i)) && s.position == 0 then
      HOut(HState(s.cash, 1, close), None)
    else if Above(close, HighestHigh(bars, n, i)) && s.position == 1 then
      HOut(HState(s.cash + (close - s.entryPrice) * 1.0, 0, s.entryPrice), Some(close - s.entryPrice))
    else HOut(s, None)
  }

  /** The P&L list with the step's sell, if any, appended. */
  function Append(pnls: seq<real>, pnl: Option<real>): seq<real> {
    match pnl
    case None => pnls
    case Some(x) => pnls + [x]
  }

  /** The loop `for i in range(n, len(data))` up to bar k-1: bars before
      index n are never visited. */
  function Run(bars: seq<Bar>, n: nat, k: nat): (t: HTrace)
    requires k <= |bars|
    ensures 0 <= t.state.position <= 1
    ensures k <= n ==> t == HTrace(Start, [])
    decreases k
  {
    if k <= n then HTrace(Start, [])
    else
      var t := Run(bars, n, k - 1);
      var o := Step(t.state, bars, n, k - 1);
      HTrace(o.state, Append(t.pnls, o.pnl))
  }

  /** The cash `backtest_strategy(data, n)` returns. */
  function FinalCash(bars: seq<Bar>, n: nat): (r: real)
    ensures r == InitialCash + Sum(Run(bars, n, |bars|).pnls)
  {
    CashIsStartPlusPnl(bars, n, |bars|);
    Run(bars, n, |bars|).state.cash
  }

  /** `backtest_strategy`. */
  method BacktestStrategy(bars: seq<Bar>, n: nat) returns (cash: real)
    ensures cash == FinalCash(bars, n)
  {
    cash := InitialCash;
    var position, entryPrice := 0, 0.0;
    var i := n;
    while i < |bars|
      invariant n <= i && (i <= |bars| || i == n)
      invariant i <= |bars| ==> Run(bars, n, i).state == HState(cash, position, entryPrice)
      invariant i > |bars| ==> Run(bars, n, |bars|).state == HState(cash, position, entryPrice)
    {
      var lowestLow := MinOf(Lows(bars, i - n, i));
      var highestHigh := MaxOf(Highs(bars, i - n, i));
      if Below(bars[i].close, lowestLow) && position == 0 {
        position := 1;
        entryPrice := bars[i].close;
      } else if Above(bars[i].close, highestHigh) && position == 1 {
        position := 0;
        var exitPrice := bars[i].close;
        cash := cash + (exitPrice - entryPrice) * 1.0;
      }
      i := i + 1;
    }
  }

  // ---------------------------------------------------------------------
  // Properties of the machine
  // ---------------------------------------------------------------------

  /** Final cash is the starting 10000 plus the P&L of every sell; a position
      still open at the end adds nothing. */
  lemma {:induction false} CashIsStartPlusPnl(bars: seq<Bar>, n: nat, k: nat)
    requires k <= |bars|
    ensures Run(bars, n, k).state.cash == InitialCash + Sum(Run(bars, n, k).pnls)
    decreases k
  {
    if k > n {
      CashIsStartPlusPnl(bars, n, k - 1);
      var t := Run(bars, n, k - 1);
      var o := Step(t.state, bars, n, k - 1);
      if o.pnl.Some? {
        SumSnoc(t.pnls, o.pnl.value);
      }
    }
  }

  /** The close of bar i is below the window's lowest Low iff the window is
      non-empty and the close is below every Low of bars i-n..i-1. */
  lemma BelowLowestLow(bars: seq<Bar>, n: nat, i: nat)
    requires n <= i < |bars|
    ensures Below(bars[i].close, LowestLow(bars, n, i))
        <==> n >= 1 && forall m :: i - n <= m < i ==> bars[i].close < bars[m].low
  {
    if n >= 1 {
      var j, k := WindowExtremes(bars, i - n, i);
    }
  }

  /** The close of bar i is above the window's highest High iff the window
      is non-empty and the close is above every High of bars i-n..i-1. */
  lemma AboveHighestHigh(bars: seq<Bar>, n: nat, i: nat)
    requires n <= i < |bars|
    ensures Above(bars[i].close, HighestHigh(bars, n, i))
        <==> n >= 1 && forall m :: i - n <= m < i ==> bars[i].close > bars[m].high
  {
    if n >= 1 {
      var j, k := WindowExtremes(bars, i - n, i);
    }
  }

  /** A flat machine buys at bar i (and at its close) exactly when the close
      breaks below all n previous Lows; a long one sells exactly when the
      close breaks above all n previous Highs, booking `close - entry`. */
  lemma BreakoutRule(bars: seq<Bar>, n: nat, i: nat)
    requires n <= i < |bars|
    ensures var before := Run(bars, n, i).state;
      var after := Run(bars, n, i + 1).state;
      && (before.position == 0 ==>
            (after.position == 1 <==> n >= 1 && forall m :: i - n <= m < i ==> bars[i].close < bars[m].low)
            && (after.position == 1 ==> after == HState(before.cash, 1, bars[i].close))
            && (after.position == 0 ==> after == before))
      && (before.position == 1 ==>
            (after.position == 0 <==> n >= 1 && forall m :: i - n <= m < i ==> bars[i].close > bars[m].high)
            && (after.position == 0 ==>
                  after.cash == before.cash + (bars[i].close - before.entryPrice)
                  && Run(bars, n, i + 1).pnls == Run(bars, n, i).pnls + [bars[i].close - before.entryPrice])
            && (after.position == 1 ==> after == before))
  {
    BelowLowestLow(bars, n, i);
    AboveHighestHigh(bars, n, i);
  }

  /** A bar that leaves a long machine long changes nothing. */
  lemma HoldLong(bars: seq<Bar>, n: nat, k: nat)
    requires n < k <= |bars|
    requires Run(bars, n, k - 1).state.position == 1 && Run(bars, n, k).state.position == 1
    ensures Run(bars, n, k).state == Run(bars, n, k - 1).state
  {
    var t := Run(bars, n, k - 1);
    assert Run(bars, n, k).state == Step(t.state, bars, n, k - 1).state;
  }

  /** A bar that takes a flat machine long is a breakout below the window,
      and the entry is its close. */
  lemma BuyBar(bars: seq<Bar>, n: nat, k: nat)
    requires n < k <= |bars|
    requires Run(bars, n, k - 1).state.position == 0 && Run(bars, n, k).state.position == 1
    ensures Below(bars[k - 1].close, LowestLow(bars, n, k - 1))
    ensures Run(bars, n, k).state.entryPrice == bars[k - 1].close
  {
    var t := Run(bars, n, k - 1);
    assert Run(bars, n, k).state == Step(t.state, bars, n, k - 1).state;
  }

  /** While long, the entry price is the close of the most recent buy: the
      bar b at which a flat machine saw its close break below the window,
      with the position held on every bar since. */
  lemma {:induction false} EntryIsLastBuy(bars: seq<Bar>, n: nat, k: nat) returns (b: nat)
    requires k <= |bars| && Run(bars, n, k).state.position == 1
    ensures n <= b < k
    ensures Run(bars, n, b).state.position == 0
    ensures Below(bars[b].close, LowestLow(bars, n, b))
    ensures Run(bars, n, k).state.entryPrice == bars[b].close
    ensures forall m :: b < m <= k ==> Run(bars, n, m).state.position == 1
    decreases k
  {
    if Run(bars, n, k - 1).state.position == 1 {
      HoldLong(bars, n, k);
      b := EntryIsLastBuy(bars, n, k - 1);
    } else {
      BuyBar(bars, n, k);
      b := k - 1;
    }
  }

  // ---------------------------------------------------------------------
  // The grid search
  // ---------------------------------------------------------------------

  /** The module-level search over n in 2..99. `best_value` starts at minus
      infinity (`None` here), so the first n is always taken; afterwards only
      a strictly larger final cash replaces the best, so the smallest n with
      the largest final cash wins. */
  method SearchBestN(bars: seq<Bar>) returns (bestN: nat, bestValue: real)
    ensures 2 <= bestN < 100
    ensures bestValue == FinalCash(bars, bestN)
    ensures forall m :: 2 <= m < 100 ==> FinalCash(bars, m) <= bestValue
    ensures forall m :: 2 <= m < bestN ==> FinalCash(bars, m) < bestValue
  {
    var best: Option<nat> := None;
    var value: Option<real> := None;
    var n := 2;
    while n < 100
      invariant 2 <= n <= 100
      invariant best.None? <==> n == 2
      invariant best.None? <==> value.None?
      invariant best.Some? ==> 2 <= best.value < n && value.value == FinalCash(bars, best.value)
      invariant best.Some? ==> forall m :: 2 <= m < n ==> FinalCash(bars, m) <= value.value
      invariant best.Some? ==> forall m :: 2 <= m < best.value ==> FinalCash(bars, m) < value.value
    {
      var finalCash := BacktestStrategy(bars, n);
      if value.None? || finalCash > value.value {
        value := Some(finalCash);
        best := Some(n);
      }
      n := n + 1;
    }
    bestN, bestValue := best.value, value.value;
  }
}
