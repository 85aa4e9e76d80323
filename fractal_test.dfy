/** fractal_test.py: symmetric w-bar fractals, a long/short machine with
    percentage stop-loss and take-profit levels that ignores fractals while a
    position is open, and the summary statistics of its P&L column. */
module FractalTest {
  import opened Market

  /** The Lows at distance j on both sides of bar i are strictly above Low[i]. */
  predicate LowsAbove(bars: seq<Bar>, i: nat, j: nat)
    requires j <= i && i + j < |bars|
  {
    bars[i - j].low > bars[i].low && bars[i + j].low > bars[i].low
  }

  /** The Highs at distance j on both sides of bar i are strictly below High[i]. */
  predicate HighsBelow(bars: seq<Bar>, i: nat, j: nat)
    requires j <= i && i + j < |bars|
  {
    bars[i - j].high < bars[i].high && bars[i + j].high < bars[i].high
  }

  /** Bar i is a bullish fractal: it has w bars on each side and every Low
      at distance 1..w is strictly above Low[i]. */
  predicate BullishFractal(bars: seq<Bar>, i: nat, w: nat) {
    if i < w || i >= |bars| - w then false
    else forall j :: 1 <= j <= w ==> LowsAbove(bars, i, j)
  }

  /** Bar i is a bearish fractal: every High at distance 1..w on both sides
      is strictly below High[i]. */
  predicate BearishFractal(bars: seq<Bar>, i: nat, w: nat) {
    if i < w || i >= |bars| - w then false
    else forall j :: 1 <= j <= w ==> HighsBelow(bars, i, j)
  }

  /** `is_bullish_fractal`: the guard, then the loop that returns false on
      the first neighbour whose Low is not above the middle Low. */
  method IsBullishFractal(bars: seq<Bar>, i: nat, window: nat) returns (b: bool)
    ensures b == BullishFractal(bars, i, window)
  {
    if i < window || i >= |bars| - window {
      return false;
    }
    var middleLow := bars[i].low;
    var j := 1;
    while j <= window
      invariant 1 <= j <= window + 1
      invariant forall k :: 1 <= k < j ==> LowsAbove(bars, i, k)
    {
      if bars[i - j].low <= middleLow || bars[i + j].low <= middleLow {
        assert !LowsAbove(bars, i, j);
        return false;
      }
      j := j + 1;
    }
    return true;
  }

  /** `is_bearish_fractal`, the dual loop on Highs. */
  method IsBearishFractal(bars: seq<Bar>, i: nat, window: nat) returns (b: bool)
    ensures b == BearishFractal(bars, i, window)
  {
    if i < window || i >= |bars| - window {
      return false;
    }
    var middleHigh := bars[i].high;
    var j := 1;
    while j <= window
      invariant 1 <= j <= window + 1
      invariant forall k :: 1 <= k < j ==> HighsBelow(bars, i, k)
    {
      if bars[i - j].high >= middleHigh || bars[i + j].high >= middleHigh {
        assert !HighsBelow(bars, i, j);
        return false;
      }
      j := j + 1;
    }
    return true;
  }

  // ---------------------------------------------------------------------
  // The backtest
  // ---------------------------------------------------------------------

  /** The five columns `backtest_strategy` adds, for one row. */
  datatype Row = Row(signal: int, position: int, entryPrice: real, exitPrice: real, pnl: real)

  /** A row the loop does not write. */
  const Blank := Row(0, 0, 0.0, 0.0, 0.0)

  /** `position` and `entry_price`. */
  datatype TState = TState(position: int, entryPrice: real)

  /** The state after a bar and the bar's row. */
  datatype TOut = TOut(state: TState, row: Row)

  /** The state after a prefix of bars and the rows written so far. */
  datatype TTrace = TTrace(state: TState, rows: seq<Row>)

  const Start := TState(0, 0.0)

  /** The states the loop can be in: one position at most, entered at a
      positive price. */
  predicate Reachable(s: TState) {
    -1 <= s.position <= 1 && (s.position != 0 ==> s.entryPrice > 0.0)
  }

  /** Percentage levels recomputed from the entry price. */
  function LongStopLoss(entry: real, stopLossPct: real): real { entry * (1.0 - stopLossPct / 100.0) }
  function LongTakeProfit(entry: real, takeProfitPct: real): real { entry * (1.0 + takeProfitPct / 100.0) }
  function ShortStopLoss(entry: real, stopLossPct: real): real { entry * (1.0 + stopLossPct / 100.0) }
  function ShortTakeProfit(entry: real, takeProfitPct: real): real { entry * (1.0 - takeProfitPct / 100.0) }

  /** One iteration at bar i. From flat a bullish fractal opens a long,
      otherwise a bearish one a short, both at the close. With a position
      open the row records it, and the position closes at the stop-loss if
      that is hit and otherwise at the take-profit; fractals are ignored. */
  function Step(s: TState, bars: seq<Bar>, i: nat, w: nat, stopLossPct: real, takeProfitPct: real): (o: TOut)
    requires i < |bars| && Reachable(s) && bars[i].close > 0.0
    ensures Reachable(o.state)
  {
    var bar := bars[i];
    if s.position == 0 then
      if BullishFractal(bars, i, w) then TOut(TState(1, bar.close), Row(1, 1, bar.close, 0.0, 0.0))
      else if BearishFractal(bars, i, w) then TOut(TState(-1, bar.close), Row(-1, -1, bar.close, 0.0, 0.0))
      else TOut(s, Blank)
    else if s.position == 1 then
      var e := s.entryPrice;
      var stopLoss, takeProfit := LongStopLoss(e, stopLossPct), LongTakeProfit(e, takeProfitPct);
      if bar.low <= stopLoss || bar.high >= takeProfit then
        var exit := if bar.low <= stopLoss then stopLoss else takeProfit;
        TOut(TState(0, e), Row(0, 1, 0.0, exit, (exit - e) / e))
      else TOut(s, Row(0, 1, 0.0, 0.0, 0.0))
    else
      var e := s.entryPrice;
      var stopLoss, takeProfit := ShortStopLoss(e, stopLossPct), ShortTakeProfit(e, takeProfitPct);
      if bar.high >= stopLoss || bar.low <= takeProfit then
        var exit := if bar.high >= stopLoss then stopLoss else takeProfit;
        TOut(TState(0, e), Row(0, -1, 0.0, exit, (e - exit) / e))
      else TOut(s, Row(0, -1, 0.0, 0.0, 0.0))
  }

  /** The loop over bars 0..k-1. */
  function Run(bars: seq<Bar>, w: nat, stopLossPct: real, takeProfitPct: real, k: nat): (t: TTrace)
    requires k <= |bars| && PositiveCloses(bars)
    ensures |t.rows| == k && Reachable(t.state)
    decreases k
  {
    if k == 0 then TTrace(Start, [])
    else
      var t := Run(bars, w, stopLossPct, takeProfitPct, k - 1);
      var o := Step(t.state, bars, k - 1, w, stopLossPct, takeProfitPct);
      TTrace(o.state, t.rows + [o.row])
  }

  /** `backtest_strategy`: the rows of the five added columns. */
  method BacktestStrategy(bars: seq<Bar>, windowSize: nat := 2, stopLossPct: real := 4.84,
                          takeProfitPct: real := 4.45)
    returns (rows: seq<Row>)
    requires PositiveCloses(bars)
    ensures rows == Run(bars, windowSize, stopLossPct, takeProfitPct, |bars|).rows
  {
    var n := |bars|;
    rows := seq(n, _ => Blank);
    var position, entryPrice := 0, 0.0;
    var i := 0;
    while i < n
      invariant i <= n && |rows| == n
      invariant Run(bars, windowSize, stopLossPct, takeProfitPct, i) == TTrace(TState(position, entryPrice), rows[..i])
      invariant forall j :: i <= j < n ==> rows[j] == Blank
    {
      ghost var before := rows;
      if position == 0 {
        var bullish := IsBullishFractal(bars, i, windowSize);
        if bullish {
          position := 1;
          entryPrice := bars[i].close;
          rows := rows[i := rows[i].(signal := 1, position := 1, entryPrice := entryPrice)];
        } else {
          var bearish := IsBearishFractal(bars, i, windowSize);
          if bearish {
            position := -1;
            entryPrice := bars[i].close;
            rows := rows[i := rows[i].(signal := -1, position := -1, entryPrice := entryPrice)];
          }
        }
      } else {
        rows := rows[i := rows[i].(position := position)];
        if position == 1 {
          var stopLoss := LongStopLoss(entryPrice, stopLossPct);
          var takeProfit := LongTakeProfit(entryPrice, takeProfitPct);
          if bars[i].low <= stopLoss || bars[i].high >= takeProfit {
            position := 0;
            var exitPrice := if bars[i].low <= stopLoss then stopLoss else takeProfit;
            rows := rows[i := rows[i].(exitPrice := exitPrice, pnl := (exitPrice - entryPrice) / entryPrice)];
          }
        } else {
          var stopLoss := ShortStopLoss(entryPrice, stopLossPct);
          var takeProfit := ShortTakeProfit(entryPrice, takeProfitPct);
          if bars[i].high >= stopLoss || bars[i].low <= takeProfit {
            position := 0;
            var exitPrice := if bars[i].high >= stopLoss then stopLoss else takeProfit;
            rows := rows[i := rows[i].(exitPrice := exitPrice, pnl := (entryPrice - exitPrice) / entryPrice)];
          }
        }
      }
      assert rows[..i + 1] == before[..i] + [rows[i]];
      i := i + 1;
    }
    assert rows == rows[..n];
  }

  /** Later bars never rewrite an earlier row. */
  lemma {:induction false} RunPrefix(bars: seq<Bar>, w: nat, stopLossPct: real, takeProfitPct: real, j: nat, k: nat)
    requires j <= k <= |bars| && PositiveCloses(bars)
    ensures Run(bars, w, stopLossPct, takeProfitPct, k).rows[..j] == Run(bars, w, stopLossPct, takeProfitPct, j).rows
    decreases k
  {
    if j < k {
      RunPrefix(bars, w, stopLossPct, takeProfitPct, j, k - 1);
      var t := Run(bars, w, stopLossPct, takeProfitPct, k);
      assert t.rows[..k - 1] == Run(bars, w, stopLossPct, takeProfitPct, k - 1).rows;
      assert t.rows[..j] == t.rows[..k - 1][..j];
    }
  }

  /** The final row i and the state after bar i are those of the step at
      bar i from the state the earlier bars left. */
  lemma StepAt(bars: seq<Bar>, w: nat, stopLossPct: real, takeProfitPct: real, i: nat)
    requires i < |bars| && PositiveCloses(bars)
    ensures var before := Run(bars, w, stopLossPct, takeProfitPct, i).state;
      var o := Step(before, bars, i, w, stopLossPct, takeProfitPct);
      && Run(bars, w, stopLossPct, takeProfitPct, |bars|).rows[i] == o.row
      && Run(bars, w, stopLossPct, takeProfitPct, i + 1).state == o.state
  {
    RunPrefix(bars, w, stopLossPct, takeProfitPct, i + 1, |bars|);
    var t := Run(bars, w, stopLossPct, takeProfitPct, |bars|);
    assert t.rows[i] == t.rows[..i + 1][i];
  }

  /** The return of each exit as a percentage: a stop-loss loses exactly
      `stop_loss_pct` percent and a take-profit gains `take_profit_pct`
      percent, on either side. */
  lemma LevelReturns(e: real, stopLossPct: real, takeProfitPct: real)
    requires e > 0.0
    ensures (LongStopLoss(e, stopLossPct) - e) / e == -stopLossPct / 100.0
    ensures (LongTakeProfit(e, takeProfitPct) - e) / e == takeProfitPct / 100.0
    ensures (e - ShortStopLoss(e, stopLossPct)) / e == -stopLossPct / 100.0
    ensures (e - ShortTakeProfit(e, takeProfitPct)) / e == takeProfitPct / 100.0
  {
    assert LongStopLoss(e, stopLossPct) - e == e * (-stopLossPct / 100.0);
    assert LongTakeProfit(e, takeProfitPct) - e == e * (takeProfitPct / 100.0);
    assert e - ShortStopLoss(e, stopLossPct) == e * (-stopLossPct / 100.0);
    assert e - ShortTakeProfit(e, takeProfitPct) == e * (takeProfitPct / 100.0);
  }

  /** From flat: a bullish fractal opens a long at the close, otherwise a
      bearish fractal opens a short; the entry row records the side and the
      price and no exit (exits are checked only on later bars). */
  lemma EntryRule(bars: seq<Bar>, w: nat, stopLossPct: real, takeProfitPct: real, i: nat)
    requires i < |bars| && PositiveCloses(bars)
    requires Run(bars, w, stopLossPct, takeProfitPct, i).state.position == 0
    ensures var before := Run(bars, w, stopLossPct, takeProfitPct, i).state;
      var after := Run(bars, w, stopLossPct, takeProfitPct, i + 1).state;
      var row := Run(bars, w, stopLossPct, takeProfitPct, |bars|).rows[i];
      var c := bars[i].close;
      && (BullishFractal(bars, i, w) ==> after == TState(1, c) && row == Row(1, 1, c, 0.0, 0.0))
      && (!BullishFractal(bars, i, w) && BearishFractal(bars, i, w) ==>
            after == TState(-1, c) && row == Row(-1, -1, c, 0.0, 0.0))
      && (!BullishFractal(bars, i, w) && !BearishFractal(bars, i, w) ==> after == before && row == Blank)
  {
    StepAt(bars, w, stopLossPct, takeProfitPct, i);
  }

  /** While long, fractals are ignored; the row records the open position;
      the stop-loss wins when both levels are hit, losing `stop_loss_pct`
      percent; otherwise the take-profit gains `take_profit_pct` percent; in
      either case the bar ends flat without re-entering. */
  lemma LongExit(bars: seq<Bar>, w: nat, stopLossPct: real, takeProfitPct: real, i: nat)
    requires i < |bars| && PositiveCloses(bars)
    requires Run(bars, w, stopLossPct, takeProfitPct, i).state.position == 1
    ensures var before := Run(bars, w, stopLossPct, takeProfitPct, i).state;
      var after := Run(bars, w, stopLossPct, takeProfitPct, i + 1).state;
      var row := Run(bars, w, stopLossPct, takeProfitPct, |bars|).rows[i];
      var e := before.entryPrice;
      var stopLoss, takeProfit := LongStopLoss(e, stopLossPct), LongTakeProfit(e, takeProfitPct);
      && row.signal == 0 && row.position == 1 && row.entryPrice == 0.0
      && (bars[i].low <= stopLoss ==>
            row.exitPrice == stopLoss && row.pnl == -stopLossPct / 100.0 && after.position == 0)
      && (bars[i].low > stopLoss && bars[i].high >= takeProfit ==>
            row.exitPrice == takeProfit && row.pnl == takeProfitPct / 100.0 && after.position == 0)
      && (bars[i].low > stopLoss && bars[i].high < takeProfit ==>
            row == Row(0, 1, 0.0, 0.0, 0.0) && after == before)
  {
    StepAt(bars, w, stopLossPct, takeProfitPct, i);
    LevelReturns(Run(bars, w, stopLossPct, takeProfitPct, i).state.entryPrice, stopLossPct, takeProfitPct);
  }

  /** While short, the mirror image: the stop-loss (High reaching it) wins
      ties, then the take-profit (Low reaching it). */
  lemma ShortExit(bars: seq<Bar>, w: nat, stopLossPct: real, takeProfitPct: real, i: nat)
    requires i < |bars| && PositiveCloses(bars)
    requires Run(bars, w, stopLossPct, takeProfitPct, i).state.position == -1
    ensures var before := Run(bars, w, stopLossPct, takeProfitPct, i).state;
      var after := Run(bars, w, stopLossPct, takeProfitPct, i + 1).state;
      var row := Run(bars, w, stopLossPct, takeProfitPct, |bars|).rows[i];
      var e := before.entryPrice;
      var stopLoss, takeProfit := ShortStopLoss(e, stopLossPct), ShortTakeProfit(e, takeProfitPct);
      && row.signal == 0 && row.position == -1 && row.entryPrice == 0.0
      && (bars[i].high >= stopLoss ==>
            row.exitPrice == stopLoss && row.pnl == -stopLossPct / 100.0 && after.position == 0)
      && (bars[i].high < stopLoss && bars[i].low <= takeProfit ==>
            row.exitPrice == takeProfit && row.pnl == takeProfitPct / 100.0 && after.position == 0)
      && (bars[i].high < stopLoss && bars[i].low > takeProfit ==>
            row == Row(0, -1, 0.0, 0.0, 0.0) && after == before)
  {
    StepAt(bars, w, stopLossPct, takeProfitPct, i);
    LevelReturns(Run(bars, w, stopLossPct, takeProfitPct, i).state.entryPrice, stopLossPct, takeProfitPct);
  }

  // ---------------------------------------------------------------------
  // Summary statistics
  // ---------------------------------------------------------------------

  /** The compounded growth `prod(1 + PnL)` of a P&L column. */
  function Growth(pnl: seq<real>): real {
    if pnl == [] then 1.0 else Growth(pnl[..|pnl| - 1]) * (1.0 + pnl[|pnl| - 1])
  }

  /** The `PnL` column. */
  function PnlColumn(rows: seq<Row>): (r: seq<real>)
    ensures |r| == |rows| && forall i :: 0 <= i < |rows| ==> r[i] == rows[i].pnl
  {
    seq(|rows|, i requires 0 <= i < |rows| => rows[i].pnl)
  }

  /** `Cumulative_Returns = (1 + PnL).cumprod() - 1`. */
  function CumulativeReturns(rows: seq<Row>): (r: seq<real>)
    ensures |r| == |rows|
  {
    var pnl := PnlColumn(rows);
    seq(|rows|, k requires 0 <= k < |rows| => Growth(pnl[..k + 1]) - 1.0)
  }

  /** The non-zero cells of a P&L column, in order: the trade returns. */
  function Trades(pnl: seq<real>): seq<real> {
    if pnl == [] then []
    else Trades(pnl[..|pnl| - 1]) + (if pnl[|pnl| - 1] != 0.0 then [pnl[|pnl| - 1]] else [])
  }

  /** Compounding ignores the rows with a zero P&L, so the cumulative return
      at row k is the compounded return of the trades closed up to row k,
      and it stays flat across rows that close nothing. */
  lemma {:induction false} GrowthOfTrades(pnl: seq<real>)
    ensures Growth(pnl) == Growth(Trades(pnl))
  {
    if pnl != [] {
      var init, last := pnl[..|pnl| - 1], pnl[|pnl| - 1];
      GrowthOfTrades(init);
      if last != 0.0 {
        var ts := Trades(init);
        assert Trades(pnl) == ts + [last];
        assert (ts + [last])[..|ts|] == ts;
      } else {
        assert Trades(pnl) == Trades(init) + [] == Trades(init);
        assert Growth(pnl) == Growth(init) * (1.0 + 0.0) == Growth(init);
      }
    }
  }

  /** The cumulative-return column: its row k compounds the trades closed up
      to row k, and a row with zero P&L repeats the previous value. */
  lemma CumulativeReturnsAt(rows: seq<Row>, k: nat)
    requires k < |rows|
    ensures CumulativeReturns(rows)[k] == Growth(Trades(PnlColumn(rows)[..k + 1])) - 1.0
    ensures k > 0 && rows[k].pnl == 0.0 ==> CumulativeReturns(rows)[k] == CumulativeReturns(rows)[k - 1]
  {
    var pnl := PnlColumn(rows);
    GrowthOfTrades(pnl[..k + 1]);
    if k > 0 {
      assert pnl[..k + 1][..k] == pnl[..k];
    }
  }

  /** `total_trades`: the rows with a non-zero `Signal` (the entry rows). */
  function TotalTrades(rows: seq<Row>): (c: nat)
    ensures c <= |rows|
  {
    if rows == [] then 0 else TotalTrades(rows[..|rows| - 1]) + (if rows[|rows| - 1].signal != 0 then 1 else 0)
  }

  /** `winning_trades`: the rows with a positive `PnL`. */
  function WinningTrades(rows: seq<Row>): (c: nat)
    ensures c <= |rows|
  {
    if rows == [] then 0 else WinningTrades(rows[..|rows| - 1]) + (if rows[|rows| - 1].pnl > 0.0 then 1 else 0)
  }

  /** `losing_trades`: the rows with a negative `PnL`. No row is both a
      winner and a loser. */
  function LosingTrades(rows: seq<Row>): (c: nat)
    ensures WinningTrades(rows) + c <= |rows|
  {
    if rows == [] then 0 else LosingTrades(rows[..|rows| - 1]) + (if rows[|rows| - 1].pnl < 0.0 then 1 else 0)
  }

  /** `win_rate`: winning over total trades, or 0 with no trades. */
  function WinRate(rows: seq<Row>): (r: real)
    ensures TotalTrades(rows) == 0 ==> r == 0.0
    ensures r >= 0.0
  {
    var total := TotalTrades(rows);
    if total > 0 then WinningTrades(rows) as real / total as real else 0.0
  }

  /** `total_return`: the last cumulative return (the table is never empty). */
  function TotalReturn(rows: seq<Row>): (r: real)
    requires |rows| > 0
    ensures r == Growth(Trades(PnlColumn(rows))) - 1.0
  {
    CumulativeReturnsAt(rows, |rows| - 1);
    assert PnlColumn(rows)[..|rows|] == PnlColumn(rows);
    CumulativeReturns(rows)[|rows| - 1]
  }

  /** Every row with a non-zero P&L closes a trade some earlier entry row
      opened: winning and losing rows together, plus the position still open,
      never outnumber the entry rows. */
  lemma {:induction false} ClosedNeverExceedOpened(bars: seq<Bar>, w: nat, stopLossPct: real,
                                                   takeProfitPct: real, k: nat)
    requires k <= |bars| && PositiveCloses(bars)
    ensures var t := Run(bars, w, stopLossPct, takeProfitPct, k);
      WinningTrades(t.rows) + LosingTrades(t.rows) + (if t.state.position != 0 then 1 else 0)
        <= TotalTrades(t.rows)
    decreases k
  {
    if k > 0 {
      ClosedNeverExceedOpened(bars, w, stopLossPct, takeProfitPct, k - 1);
      var t := Run(bars, w, stopLossPct, takeProfitPct, k - 1);
      var o := Step(t.state, bars, k - 1, w, stopLossPct, takeProfitPct);
      var rows := Run(bars, w, stopLossPct, takeProfitPct, k).rows;
      assert rows == t.rows + [o.row];
      assert rows[..k - 1] == t.rows;
      StepCounts(t.state, bars, k - 1, w, stopLossPct, takeProfitPct);
    }
  }

  /** One bar opens a trade only from flat and closes one (with a non-zero
      P&L) only from an open position: it never closes more than was open. */
  lemma StepCounts(s: TState, bars: seq<Bar>, i: nat, w: nat, stopLossPct: real, takeProfitPct: real)
    requires i < |bars| && Reachable(s) && bars[i].close > 0.0
    ensures var o := Step(s, bars, i, w, stopLossPct, takeProfitPct);
      (if o.row.pnl > 0.0 then 1 else 0) + (if o.row.pnl < 0.0 then 1 else 0)
        + (if o.state.position != 0 then 1 else 0)
        <= (if o.row.signal != 0 then 1 else 0) + (if s.position != 0 then 1 else 0)
  {
  }

  /** Hence the win rate is a fraction, and winning plus losing rows never
      exceed the trades counted. */
  lemma WinRateBounds(bars: seq<Bar>, w: nat, stopLossPct: real, takeProfitPct: real)
    requires PositiveCloses(bars)
    ensures var rows := Run(bars, w, stopLossPct, takeProfitPct, |bars|).rows;
      && WinningTrades(rows) + LosingTrades(rows) <= TotalTrades(rows)
      && 0.0 <= WinRate(rows) <= 1.0
  {
    ClosedNeverExceedOpened(bars, w, stopLossPct, takeProfitPct, |bars|);
    var rows := Run(bars, w, stopLossPct, takeProfitPct, |bars|).rows;
    if TotalTrades(rows) > 0 {
      FractionBounds(WinningTrades(rows), TotalTrades(rows));
    }
  }
}
