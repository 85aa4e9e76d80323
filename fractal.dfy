/** fractal.py: four-point fractal markers, a buy/sell signal per row and a
    long-only position loop with percentage stop-loss and take-profit levels
    recomputed from the entry price. */
module Fractal {
  import opened Market

  /** Bar i is a bearish fractal: its High is strictly above the Highs of
      bars i-w, i-w+1, i+1 and i+w. (With w = 0 the first comparison is
      already false.) */
  predicate BearishAt(bars: seq<Bar>, w: nat, i: nat)
    requires w <= i && i + w < |bars|
  {
    w >= 1 && bars[i].high > bars[i - w].high && bars[i].high > bars[i - w + 1].high
      && bars[i].high > bars[i + 1].high && bars[i].high > bars[i + w].high
  }

  /** Bar i is a bullish fractal: its Low is strictly below the Lows of bars
      i-w, i-w+1, i+1 and i+w. */
  predicate BullishAt(bars: seq<Bar>, w: nat, i: nat)
    requires w <= i && i + w < |bars|
  {
    w >= 1 && bars[i].low < bars[i - w].low && bars[i].low < bars[i - w + 1].low
      && bars[i].low < bars[i + 1].low && bars[i].low < bars[i + w].low
  }

  /** The `Bearish_Fractal` cell of row i: High[i] on a bearish fractal among
      the rows the loop visits (w <= i < len - w), 0 everywhere else. */
  function BearishMarker(bars: seq<Bar>, w: nat, i: nat): real
    requires i < |bars|
  {
    if w <= i && i + w < |bars| && BearishAt(bars, w, i) then bars[i].high else 0.0
  }

  /** The `Bullish_Fractal` cell of row i. */
  function BullishMarker(bars: seq<Bar>, w: nat, i: nat): real
    requires i < |bars|
  {
    if w <= i && i + w < |bars| && BullishAt(bars, w, i) then bars[i].low else 0.0
  }

  /** `calculate_fractals`: both marker columns, zero-initialised and filled
      in one loop over rows w..len-w-1. */
  method CalculateFractals(bars: seq<Bar>, windowSize: nat) returns (bearish: seq<real>, bullish: seq<real>)
    ensures |bearish| == |bars| && |bullish| == |bars|
    ensures forall i :: 0 <= i < |bars| ==> bearish[i] == BearishMarker(bars, windowSize, i)
    ensures forall i :: 0 <= i < |bars| ==> bullish[i] == BullishMarker(bars, windowSize, i)
  {
    var n, w := |bars|, windowSize;
    bearish := seq(n, _ => 0.0);
    bullish := seq(n, _ => 0.0);
    var i := w;
    while i + w < n
      invariant w <= i && (i + w <= n || i == w)
      invariant |bearish| == n && |bullish| == n
      invariant forall j :: 0 <= j < n ==> bearish[j] == (if j < i then BearishMarker(bars, w, j) else 0.0)
      invariant forall j :: 0 <= j < n ==> bullish[j] == (if j < i then BullishMarker(bars, w, j) else 0.0)
    {
      if w >= 1 && bars[i].high > bars[i - w].high && bars[i].high > bars[i - w + 1].high
         && bars[i].high > bars[i + 1].high && bars[i].high > bars[i + w].high {
        bearish := bearish[i := bars[i].high];
      }
      if w >= 1 && bars[i].low < bars[i - w].low && bars[i].low < bars[i - w + 1].low
         && bars[i].low < bars[i + 1].low && bars[i].low < bars[i + w].low {
        bullish := bullish[i := bars[i].low];
      }
      i := i + 1;
    }
  }

  // ---------------------------------------------------------------------
  // Signals
  // ---------------------------------------------------------------------

  /** `Signal` of a row: 1 on a positive bullish marker, otherwise -1 on a
      positive bearish marker, otherwise 0. */
  function SignalOf(bearish: real, bullish: real): int {
    if bullish > 0.0 then 1 else if bearish > 0.0 then -1 else 0
  }

  /** The signal marking loop: `Signal`, `Entry_Price` (the close on buy rows)
      and `Exit_Price` (the close on sell rows), all zero elsewhere. */
  method MarkSignals(bars: seq<Bar>, bearish: seq<real>, bullish: seq<real>)
    returns (signal: seq<int>, entryPrice: seq<real>, exitPrice: seq<real>)
    requires |bearish| == |bars| && |bullish| == |bars|
    ensures |signal| == |bars| && |entryPrice| == |bars| && |exitPrice| == |bars|
    ensures forall i :: 0 <= i < |bars| ==> signal[i] == SignalOf(bearish[i], bullish[i])
    ensures forall i :: 0 <= i < |bars| ==> entryPrice[i] == (if signal[i] == 1 then bars[i].close else 0.0)
    ensures forall i :: 0 <= i < |bars| ==> exitPrice[i] == (if signal[i] == -1 then bars[i].close else 0.0)
  {
    var n := |bars|;
    signal := seq(n, _ => 0);
    entryPrice := seq(n, _ => 0.0);
    exitPrice := seq(n, _ => 0.0);
    var i := 0;
    while i < n
      invariant i <= n && |signal| == n && |entryPrice| == n && |exitPrice| == n
      invariant forall j :: 0 <= j < n ==> signal[j] == (if j < i then SignalOf(bearish[j], bullish[j]) else 0)
      invariant forall j :: 0 <= j < n ==> entryPrice[j] == (if j < i && signal[j] == 1 then bars[j].close else 0.0)
      invariant forall j :: 0 <= j < n ==> exitPrice[j] == (if j < i && signal[j] == -1 then bars[j].close else 0.0)
    {
      if bullish[i] > 0.0 {
        signal := signal[i := 1];
        entryPrice := entryPrice[i := bars[i].close];
      } else if bearish[i] > 0.0 {
        signal := signal[i := -1];
        exitPrice := exitPrice[i := bars[i].close];
      }
      i := i + 1;
    }
  }

  // ---------------------------------------------------------------------
  // The position loop
  // ---------------------------------------------------------------------

  /** `position`, `previous_price` and `cumulative_pnl`. */
  datatype FState = FState(position: int, previousPrice: real, cumulativePnl: real)

  /** The state after a bar and the bar's `Trade_PnL` cell (0 if not written). */
  datatype FOut = FOut(state: FState, tradePnl: real)

  /** The state after a prefix of rows and the `Trade_PnL` cells so far. */
  datatype FTrace = FTrace(state: FState, tradePnl: seq<real>)

  const Start := FState(0, 0.0, 0.0)

  /** The first half of an iteration: a buy (re)enters at the row's
      `Entry_Price`; a sell closes an open long at `Exit_Price`. */
  function OnSignal(s: FState, signal: int, entryPrice: real, exitPrice: real): FOut {
    if signal == 1 then FOut(FState(1, entryPrice, s.cumulativePnl), 0.0)
    else if signal == -1 then
      if s.position == 1 then
        var pnl := exitPrice - s.previousPrice;
        FOut(FState(0, s.previousPrice, s.cumulativePnl + pnl), pnl)
      else FOut(s, 0.0)
    else FOut(s, 0.0)
  }

  /** The stop-loss level of a long entered at p. */
  function StopLossLevel(p: real, multiplier: real): real {
    p - p * multiplier
  }

  /** The take-profit level of a long entered at p. */
  function TakeProfitLevel(p: real, multiplier: real): real {
    p + p * multiplier
  }

  /** The second half: an open long is closed at its stop-loss if Low
      reaches it, otherwise at its take-profit if High reaches it. */
  function Protect(o: FOut, bar: Bar, slMultiplier: real, tpMultiplier: real): FOut {
    if o.state.position == 1 then
      var p := o.state.previousPrice;
      var stopLoss := StopLossLevel(p, slMultiplier);
      var takeProfit := TakeProfitLevel(p, tpMultiplier);
      if bar.low <= stopLoss then FOut(FState(0, p, o.state.cumulativePnl + (stopLoss - p)), stopLoss - p)
      else if bar.high >= takeProfit then FOut(FState(0, p, o.state.cumulativePnl + (takeProfit - p)), takeProfit - p)
      else o
    else o
  }

  /** One iteration; `cumulative_pnl` grows by exactly the cell it writes. */
  function Step(s: FState, bar: Bar, signal: int, entryPrice: real, exitPrice: real,
                slMultiplier: real, tpMultiplier: real): (o: FOut)
    ensures 0 <= s.position <= 1 ==> 0 <= o.state.position <= 1
    ensures o.state.cumulativePnl == s.cumulativePnl + o.tradePnl
  {
    Protect(OnSignal(s, signal, entryPrice, exitPrice), bar, slMultiplier, tpMultiplier)
  }

  /** The position loop over rows 0..k-1. The machine is long-only. */
  function Run(bars: seq<Bar>, signal: seq<int>, entryPrice: seq<real>, exitPrice: seq<real>,
               slMultiplier: real, tpMultiplier: real, k: nat): (t: FTrace)
    requires k <= |bars| == |signal| == |entryPrice| == |exitPrice|
    ensures |t.tradePnl| == k && 0 <= t.state.position <= 1
    decreases k
  {
    if k == 0 then FTrace(Start, [])
    else
      var t := Run(bars, signal, entryPrice, exitPrice, slMultiplier, tpMultiplier, k - 1);
      var o := Step(t.state, bars[k - 1], signal[k - 1], entryPrice[k - 1], exitPrice[k - 1],
                    slMultiplier, tpMultiplier);
      FTrace(o.state, t.tradePnl + [o.tradePnl])
  }

  /** `cumulative_pnl` is the sum of the `Trade_PnL` column, so the final
      percentage equals the last value of the column's cumulative sum scaled
      the same way (as the plotting replay of the script computes it). */
  lemma {:induction false} CumulativeIsColumnSum(bars: seq<Bar>, signal: seq<int>, entryPrice: seq<real>,
                                                 exitPrice: seq<real>, slMultiplier: real, tpMultiplier: real, k: nat)
    requires k <= |bars| == |signal| == |entryPrice| == |exitPrice|
    ensures var t := Run(bars, signal, entryPrice, exitPrice, slMultiplier, tpMultiplier, k);
      t.state.cumulativePnl == Sum(t.tradePnl)
    decreases k
  {
    if k > 0 {
      CumulativeIsColumnSum(bars, signal, entryPrice, exitPrice, slMultiplier, tpMultiplier, k - 1);
      var t := Run(bars, signal, entryPrice, exitPrice, slMultiplier, tpMultiplier, k - 1);
      var o := Step(t.state, bars[k - 1], signal[k - 1], entryPrice[k - 1], exitPrice[k - 1],
                    slMultiplier, tpMultiplier);
      SumSnoc(t.tradePnl, o.tradePnl);
    }
  }

  /** Later rows never rewrite an earlier `Trade_PnL` cell. */
  lemma {:induction false} RunPrefix(bars: seq<Bar>, signal: seq<int>, entryPrice: seq<real>, exitPrice: seq<real>,
                                     slMultiplier: real, tpMultiplier: real, j: nat, k: nat)
    requires j <= k <= |bars| == |signal| == |entryPrice| == |exitPrice|
    ensures Run(bars, signal, entryPrice, exitPrice, slMultiplier, tpMultiplier, k).tradePnl[..j]
         == Run(bars, signal, entryPrice, exitPrice, slMultiplier, tpMultiplier, j).tradePnl
    decreases k
  {
    if j < k {
      RunPrefix(bars, signal, entryPrice, exitPrice, slMultiplier, tpMultiplier, j, k - 1);
      var t := Run(bars, signal, entryPrice, exitPrice, slMultiplier, tpMultiplier, k);
      assert t.tradePnl[..k - 1] == Run(bars, signal, entryPrice, exitPrice, slMultiplier, tpMultiplier, k - 1).tradePnl;
      assert t.tradePnl[..j] == t.tradePnl[..k - 1][..j];
    }
  }

  /** The final `Trade_PnL[i]` and the state after row i are those of the
      step at row i from the state the earlier rows left. */
  lemma StepAt(bars: seq<Bar>, signal: seq<int>, entryPrice: seq<real>, exitPrice: seq<real>,
               slMultiplier: real, tpMultiplier: real, i: nat)
    requires i < |bars| == |signal| == |entryPrice| == |exitPrice|
    ensures var n := |bars|;
      var before := Run(bars, signal, entryPrice, exitPrice, slMultiplier, tpMultiplier, i).state;
      var o := Step(before, bars[i], signal[i], entryPrice[i], exitPrice[i], slMultiplier, tpMultiplier);
      && Run(bars, signal, entryPrice, exitPrice, slMultiplier, tpMultiplier, n).tradePnl[i] == o.tradePnl
      && Run(bars, signal, entryPrice, exitPrice, slMultiplier, tpMultiplier, i + 1).state == o.state
  {
    var n := |bars|;
    RunPrefix(bars, signal, entryPrice, exitPrice, slMultiplier, tpMultiplier, i + 1, n);
    var t := Run(bars, signal, entryPrice, exitPrice, slMultiplier, tpMultiplier, n);
    assert t.tradePnl[i] == t.tradePnl[..i + 1][i];
  }

  /** A buy row (re)enters at its `Entry_Price` without recording a trade,
      even when a long is already open, and the stop-loss / take-profit check
      then runs on that same row with levels from the new price: stop-loss
      first, with P&L `-price * stop_loss_multiplier`, then take-profit. */
  lemma BuyRowChecksLevels(bars: seq<Bar>, signal: seq<int>, entryPrice: seq<real>, exitPrice: seq<real>,
                           slMultiplier: real, tpMultiplier: real, i: nat)
    requires i < |bars| == |signal| == |entryPrice| == |exitPrice|
    requires signal[i] == 1
    ensures var n := |bars|;
      var before := Run(bars, signal, entryPrice, exitPrice, slMultiplier, tpMultiplier, i).state;
      var after := Run(bars, signal, entryPrice, exitPrice, slMultiplier, tpMultiplier, i + 1).state;
      var pnl := Run(bars, signal, entryPrice, exitPrice, slMultiplier, tpMultiplier, n).tradePnl[i];
      var p := entryPrice[i];
      && (bars[i].low <= p - p * slMultiplier ==>
            pnl == -(p * slMultiplier) && after == FState(0, p, before.cumulativePnl + pnl))
      && (bars[i].low > p - p * slMultiplier && bars[i].high >= p + p * tpMultiplier ==>
            pnl == p * tpMultiplier && after == FState(0, p, before.cumulativePnl + pnl))
      && (bars[i].low > p - p * slMultiplier && bars[i].high < p + p * tpMultiplier ==>
            pnl == 0.0 && after == FState(1, p, before.cumulativePnl))
  {
    StepAt(bars, signal, entryPrice, exitPrice, slMultiplier, tpMultiplier, i);
  }

  /** A sell row closes an open long at `Exit_Price` (and no level check
      follows, the position being flat); while flat it does nothing. */
  lemma SellRow(bars: seq<Bar>, signal: seq<int>, entryPrice: seq<real>, exitPrice: seq<real>,
                slMultiplier: real, tpMultiplier: real, i: nat)
    requires i < |bars| == |signal| == |entryPrice| == |exitPrice|
    requires signal[i] == -1
    ensures var n := |bars|;
      var before := Run(bars, signal, entryPrice, exitPrice, slMultiplier, tpMultiplier, i).state;
      var after := Run(bars, signal, entryPrice, exitPrice, slMultiplier, tpMultiplier, i + 1).state;
      var pnl := Run(bars, signal, entryPrice, exitPrice, slMultiplier, tpMultiplier, n).tradePnl[i];
      && (before.position == 1 ==>
            pnl == exitPrice[i] - before.previousPrice && after.position == 0
            && after.cumulativePnl == before.cumulativePnl + pnl)
      && (before.position == 0 ==> pnl == 0.0 && after == before)
  {
    StepAt(bars, signal, entryPrice, exitPrice, slMultiplier, tpMultiplier, i);
  }

  /** On any other row an open long keeps its `previous_price` and is closed
      at the stop-loss first, otherwise at the take-profit. */
  lemma HeldLongChecksLevels(bars: seq<Bar>, signal: seq<int>, entryPrice: seq<real>, exitPrice: seq<real>,
                             slMultiplier: real, tpMultiplier: real, i: nat)
    requires i < |bars| == |signal| == |entryPrice| == |exitPrice|
    requires signal[i] != 1 && signal[i] != -1
    requires Run(bars, signal, entryPrice, exitPrice, slMultiplier, tpMultiplier, i).state.position == 1
    ensures var n := |bars|;
      var before := Run(bars, signal, entryPrice, exitPrice, slMultiplier, tpMultiplier, i).state;
      var after := Run(bars, signal, entryPrice, exitPrice, slMultiplier, tpMultiplier, i + 1).state;
      var pnl := Run(bars, signal, entryPrice, exitPrice, slMultiplier, tpMultiplier, n).tradePnl[i];
      var p := before.previousPrice;
      && (bars[i].low <= p - p * slMultiplier ==> pnl == -(p * slMultiplier) && after.position == 0)
      && (bars[i].low > p - p * slMultiplier && bars[i].high >= p + p * tpMultiplier ==>
            pnl == p * tpMultiplier && after.position == 0)
      && (bars[i].low > p - p * slMultiplier && bars[i].high < p + p * tpMultiplier ==>
            pnl == 0.0 && after == before)
  {
    StepAt(bars, signal, entryPrice, exitPrice, slMultiplier, tpMultiplier, i);
    var before := Run(bars, signal, entryPrice, exitPrice, slMultiplier, tpMultiplier, i).state;
    var p := before.previousPrice;
    var held := OnSignal(before, signal[i], entryPrice[i], exitPrice[i]);
    assert held == FOut(before, 0.0);
    assert Step(before, bars[i], signal[i], entryPrice[i], exitPrice[i], slMultiplier, tpMultiplier)
        == Protect(held, bars[i], slMultiplier, tpMultiplier);
    assert StopLossLevel(p, slMultiplier) == p - p * slMultiplier;
    assert TakeProfitLevel(p, tpMultiplier) == p + p * tpMultiplier;
  }

  /** The position loop of `backtest_strategy`: one pass over the rows,
      writing `Trade_PnL` and accumulating `cumulative_pnl`, which ends as the
      sum of the column. */
  method PositionLoop(bars: seq<Bar>, signal: seq<int>, entryPrice: seq<real>, exitPrice: seq<real>,
                      stopLossMultiplier: real, takeProfitMultiplier: real)
    returns (tradePnl: seq<real>, cumulativePnl: real)
    requires |bars| == |signal| == |entryPrice| == |exitPrice|
    ensures tradePnl == Run(bars, signal, entryPrice, exitPrice, stopLossMultiplier, takeProfitMultiplier, |bars|).tradePnl
    ensures cumulativePnl == Sum(tradePnl)
  {
    var n := |bars|;
    tradePnl := seq(n, _ => 0.0);
    var position, previousPrice := 0, 0.0;
    cumulativePnl := 0.0;
    var i := 0;
    while i < n
      invariant i <= n && |tradePnl| == n
      invariant Run(bars, signal, entryPrice, exitPrice, stopLossMultiplier, takeProfitMultiplier, i)
             == FTrace(FState(position, previousPrice, cumulativePnl), tradePnl[..i])
      invariant forall j :: i <= j < n ==> tradePnl[j] == 0.0
    {
      ghost var before := tradePnl;
      ghost var s := FState(position, previousPrice, cumulativePnl);
      if signal[i] == 1 {
        position := 1;
        previousPrice := entryPrice[i];
      } else if signal[i] == -1 {
        if position == 1 {
          tradePnl := tradePnl[i := exitPrice[i] - previousPrice];
          cumulativePnl := cumulativePnl + tradePnl[i];
          position := 0;
        }
      }
      ghost var signalled := OnSignal(s, signal[i], entryPrice[i], exitPrice[i]);
      assert signalled == FOut(FState(position, previousPrice, cumulativePnl), tradePnl[i]);
      if position == 1 {
        var stopLoss := StopLossLevel(previousPrice, stopLossMultiplier);
        var takeProfit := TakeProfitLevel(previousPrice, takeProfitMultiplier);
        if bars[i].low <= stopLoss {
          tradePnl := tradePnl[i := stopLoss - previousPrice];
          cumulativePnl := cumulativePnl + tradePnl[i];
          position := 0;
        } else if bars[i].high >= takeProfit {
          tradePnl := tradePnl[i := takeProfit - previousPrice];
          cumulativePnl := cumulativePnl + tradePnl[i];
          position := 0;
        }
      }
      assert Protect(signalled, bars[i], stopLossMultiplier, takeProfitMultiplier)
          == FOut(FState(position, previousPrice, cumulativePnl), tradePnl[i]);
      assert tradePnl[..i + 1] == before[..i] + [tradePnl[i]];
      i := i + 1;
    }
    assert tradePnl == tradePnl[..n];
    CumulativeIsColumnSum(bars, signal, entryPrice, exitPrice, stopLossMultiplier, takeProfitMultiplier, n);
  }

  /** The columns `backtest_strategy` leaves in the caller's frame. */
  datatype Frame = Frame(bearish: seq<real>, bullish: seq<real>, signal: seq<int>,
                         entryPrice: seq<real>, exitPrice: seq<real>, tradePnl: seq<real>)

  /** `backtest_strategy`: markers, signals, the position loop, and the
      cumulative P&L as a percentage of the initial balance. */
  method BacktestStrategy(bars: seq<Bar>, windowSize: nat, stopLossMultiplier: real,
                          takeProfitMultiplier: real, initialBalance: real)
    returns (result: real, frame: Frame)
    requires initialBalance != 0.0
    ensures |frame.bearish| == |frame.bullish| == |frame.signal| == |bars|
    ensures |frame.entryPrice| == |frame.exitPrice| == |frame.tradePnl| == |bars|
    ensures forall i :: 0 <= i < |bars| ==> frame.bearish[i] == BearishMarker(bars, windowSize, i)
    ensures forall i :: 0 <= i < |bars| ==> frame.bullish[i] == BullishMarker(bars, windowSize, i)
    ensures forall i :: 0 <= i < |bars| ==> frame.signal[i] == SignalOf(frame.bearish[i], frame.bullish[i])
    ensures forall i :: 0 <= i < |bars| ==>
      frame.entryPrice[i] == (if frame.signal[i] == 1 then bars[i].close else 0.0)
    ensures forall i :: 0 <= i < |bars| ==>
      frame.exitPrice[i] == (if frame.signal[i] == -1 then bars[i].close else 0.0)
    ensures frame.tradePnl == Run(bars, frame.signal, frame.entryPrice, frame.exitPrice,
                                  stopLossMultiplier, takeProfitMultiplier, |bars|).tradePnl
    ensures result == Sum(frame.tradePnl) / initialBalance * 100.0
  {
    var bearish, bullish := CalculateFractals(bars, windowSize);
    var signal, entryPrice, exitPrice := MarkSignals(bars, bearish, bullish);
    var tradePnl, cumulativePnl := PositionLoop(bars, signal, entryPrice, exitPrice,
                                                stopLossMultiplier, takeProfitMultiplier);
    result := cumulativePnl / initialBalance * 100.0;
    frame := Frame(bearish, bullish, signal, entryPrice, exitPrice, tradePnl);
  }
}
