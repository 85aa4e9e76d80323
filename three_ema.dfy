/** 3ema.py: a long/short machine entered on the ordering of three EMAs
    against the previous close, left at percentage stop-loss / take-profit
    levels, with the closed trades folded into a total P&L and a win rate. */
module ThreeEma {
  import opened Market

  /** `Close[i-1]`. At i = 0 the integer key -1 falls back to a positional
      lookup, which reads the last bar. */
  function PrevClose(bars: seq<Bar>, i: nat): (r: real)
    requires i < |bars|
    ensures r == bars[(i + |bars| - 1) % |bars|].close
  {
    if i == 0 then bars[|bars| - 1].close else bars[i - 1].close
  }

  /** The EMA columns (given by pandas for the three periods), one cell per bar. */
  datatype Emas = Emas(short: seq<real>, medium: seq<real>, long: seq<real>)

  predicate WellFormed(bars: seq<Bar>, emas: Emas) {
    |emas.short| == |bars| && |emas.medium| == |bars| && |emas.long| == |bars|
  }

  /** The long entry rule at bar i. */
  predicate LongEntry(bars: seq<Bar>, emas: Emas, i: nat)
    requires WellFormed(bars, emas) && i < |bars|
  {
    emas.short[i] > emas.medium[i] && emas.long[i] > PrevClose(bars, i)
  }

  /** The short entry rule at bar i. */
  predicate ShortEntry(bars: seq<Bar>, emas: Emas, i: nat)
    requires WellFormed(bars, emas) && i < |bars|
  {
    emas.short[i] < emas.medium[i] && emas.long[i] < PrevClose(bars, i)
  }

  /** Percentage levels (fractions, not percent) recomputed from the entry price. */
  function LongStopLoss(entry: real, slPercent: real): real { entry * (1.0 - slPercent) }
  function LongTakeProfit(entry: real, tpPercent: real): real { entry * (1.0 + tpPercent) }
  function ShortStopLoss(entry: real, slPercent: real): real { entry * (1.0 + slPercent) }
  function ShortTakeProfit(entry: real, tpPercent: real): real { entry * (1.0 - tpPercent) }

  /** An `(entry_price, exit_price)` pair of the `trades` list. */
  datatype Trade = Trade(entry: real, exit: real)

  /** The `PnL` column of the trades frame: `Exit - Entry`, whatever the side. */
  function Pnl(t: Trade): real { t.exit - t.entry }

  /** `position` and `entry_price`. */
  datatype EState = EState(position: int, entryPrice: real)

  /** The state after a bar and the trade it appends, if any. */
  datatype EOut = EOut(state: EState, trade: Option<Trade>)

  /** The state after a prefix of bars and the trades list so far. */
  datatype ETrace = ETrace(state: EState, trades: seq<Trade>)

  const Start := EState(0, 0.0)

  /** One iteration at bar i: from flat the long rule, otherwise the short
      rule, enters at the close; with a position open only the levels are
      checked, the stop-loss winning when both are hit, and an exit appends
      the trade and leaves the position flat. */
  function Step(s: EState, bars: seq<Bar>, emas: Emas, i: nat, tpPercent: real, slPercent: real): (o: EOut)
    requires WellFormed(bars, emas) && i < |bars| && -1 <= s.position <= 1
    ensures -1 <= o.state.position <= 1
  {
    var bar := bars[i];
    if s.position == 0 then
      if LongEntry(bars, emas, i) then EOut(EState(1, bar.close), None)
      else if ShortEntry(bars, emas, i) then EOut(EState(-1, bar.close), None)
      else EOut(s, None)
    else if s.position == 1 then
      var e := s.entryPrice;
      var stopLoss, takeProfit := LongStopLoss(e, slPercent), LongTakeProfit(e, tpPercent);
      if bar.low <= stopLoss || bar.high >= takeProfit then
        var exit := if bar.low <= stopLoss then stopLoss else takeProfit;
        EOut(EState(0, e), Some(Trade(e, exit)))
      else EOut(s, None)
    else
      var e := s.entryPrice;
      var stopLoss, takeProfit := ShortStopLoss(e, slPercent), ShortTakeProfit(e, tpPercent);
      if bar.high >= stopLoss || bar.low <= takeProfit then
        var exit := if bar.high >= stopLoss then stopLoss else takeProfit;
        EOut(EState(0, e), Some(Trade(e, exit)))
      else EOut(s, None)
  }

  /** The list with the step's trade, if any, appended. */
  function Append(trades: seq<Trade>, t: Option<Trade>): seq<Trade> {
    match t
    case None => trades
    case Some(x) => trades + [x]
  }

  /** The loop over bars 0..k-1. */
  function Run(bars: seq<Bar>, emas: Emas, tpPercent: real, slPercent: real, k: nat): (t: ETrace)
    requires WellFormed(bars, emas) && k <= |bars|
    ensures -1 <= t.state.position <= 1
    decreases k
  {
    if k == 0 then ETrace(Start, [])
    else
      var t := Run(bars, emas, tpPercent, slPercent, k - 1);
      var o := Step(t.state, bars, emas, k - 1, tpPercent, slPercent);
      ETrace(o.state, Append(t.trades, o.trade))
  }

  /** Total of the `PnL` column. */
  function SumPnl(trades: seq<Trade>): (r: real)
    ensures trades != [] && Wins(trades) == |trades| ==> r > 0.0
  {
    if trades == [] then 0.0 else SumPnl(trades[..|trades| - 1]) + Pnl(trades[|trades| - 1])
  }

  /** The number of trades with a positive P&L. */
  function Wins(trades: seq<Trade>): (c: nat)
    ensures c <= |trades|
  {
    if trades == [] then 0 else Wins(trades[..|trades| - 1]) + (if Pnl(trades[|trades| - 1]) > 0.0 then 1 else 0)
  }

  /** The aggregation: `(total_pnl, win_rate)`, or `(0, 0)` with no trades. */
  datatype Summary = Summary(totalPnl: real, winRate: real)

  function Summarize(trades: seq<Trade>): (r: Summary)
    ensures trades == [] ==> r == Summary(0.0, 0.0)
    ensures 0.0 <= r.winRate <= 1.0
    ensures trades != [] ==> r.winRate * |trades| as real == Wins(trades) as real
  {
    if trades != [] then
      FractionBounds(Wins(trades), |trades|);
      Summary(SumPnl(trades), Wins(trades) as real / |trades| as real)
    else Summary(0.0, 0.0)
  }

  /** `backtest`: the loop, then the aggregation of the closed trades. */
  method Backtest(bars: seq<Bar>, emas: Emas, tpPercent: real, slPercent: real) returns (r: Summary)
    requires WellFormed(bars, emas)
    ensures r == Summarize(Run(bars, emas, tpPercent, slPercent, |bars|).trades)
  {
    var n := |bars|;
    var position, entryPrice := 0, 0.0;
    var trades: seq<Trade> := [];
    var i := 0;
    while i < n
      invariant i <= n
      invariant Run(bars, emas, tpPercent, slPercent, i) == ETrace(EState(position, entryPrice), trades)
    {
      var prevClose := if i == 0 then bars[n - 1].close else bars[i - 1].close;
      if position == 0 {
        if emas.short[i] > emas.medium[i] && emas.long[i] > prevClose {
          position := 1;
          entryPrice := bars[i].close;
        } else if emas.short[i] < emas.medium[i] && emas.long[i] < prevClose {
          position := -1;
          entryPrice := bars[i].close;
        }
      } else {
        if position == 1 {
          var stopLoss := LongStopLoss(entryPrice, slPercent);
          var takeProfit := LongTakeProfit(entryPrice, tpPercent);
          if bars[i].low <= stopLoss || bars[i].high >= takeProfit {
            var exitPrice := if bars[i].low <= stopLoss then stopLoss else takeProfit;
            trades := trades + [Trade(entryPrice, exitPrice)];
            position := 0;
          }
        } else {
          var stopLoss := ShortStopLoss(entryPrice, slPercent);
          var takeProfit := ShortTakeProfit(entryPrice, tpPercent);
          if bars[i].high >= stopLoss || bars[i].low <= takeProfit {
            var exitPrice := if bars[i].high >= stopLoss then stopLoss else takeProfit;
            trades := trades + [Trade(entryPrice, exitPrice)];
            position := 0;
          }
        }
      }
      i := i + 1;
    }
    r := Summarize(trades);
  }

  // ---------------------------------------------------------------------
  // Properties
  // ---------------------------------------------------------------------

  /** The trades list only grows: later bars never rewrite a recorded trade. */
  lemma {:induction false} RunPrefix(bars: seq<Bar>, emas: Emas, tpPercent: real, slPercent: real, j: nat, k: nat)
    requires WellFormed(bars, emas) && j <= k <= |bars|
    ensures var early := Run(bars, emas, tpPercent, slPercent, j).trades;
      var late := Run(bars, emas, tpPercent, slPercent, k).trades;
      |early| <= |late| && late[..|early|] == early
    decreases k
  {
    if j < k {
      RunPrefix(bars, emas, tpPercent, slPercent, j, k - 1);
      var early := Run(bars, emas, tpPercent, slPercent, j).trades;
      var mid := Run(bars, emas, tpPercent, slPercent, k - 1).trades;
      var late := Run(bars, emas, tpPercent, slPercent, k).trades;
      assert late == mid || late == mid + [late[|late| - 1]];
      assert late[..|mid|] == mid;
      assert late[..|early|] == mid[..|early|];
    }
  }

  /** From flat at bar i: a long opens at the close iff the short EMA is above
      the medium one and the long EMA is above the previous close (the last
      bar's close at i = 0); otherwise a short opens under the mirrored rule;
      an entry bar appends nothing. */
  lemma EntryRule(bars: seq<Bar>, emas: Emas, tpPercent: real, slPercent: real, i: nat)
    requires WellFormed(bars, emas) && i < |bars|
    requires Run(bars, emas, tpPercent, slPercent, i).state.position == 0
    ensures var before := Run(bars, emas, tpPercent, slPercent, i);
      var after := Run(bars, emas, tpPercent, slPercent, i + 1);
      var c := bars[i].close;
      && after.trades == before.trades
      && (after.state.position == 1 <==> LongEntry(bars, emas, i))
      && (after.state.position == -1 <==> !LongEntry(bars, emas, i) && ShortEntry(bars, emas, i))
      && (after.state.position != 0 ==> after.state.entryPrice == c)
  {
  }

  /** While long at bar i: the stop-loss exit (Low reaching it) wins over the
      take-profit; either appends `(entry, exit)` and leaves the bar flat,
      with no re-entry; otherwise nothing changes. */
  lemma LongExit(bars: seq<Bar>, emas: Emas, tpPercent: real, slPercent: real, i: nat)
    requires WellFormed(bars, emas) && i < |bars|
    requires Run(bars, emas, tpPercent, slPercent, i).state.position == 1
    ensures var before := Run(bars, emas, tpPercent, slPercent, i);
      var after := Run(bars, emas, tpPercent, slPercent, i + 1);
      var e := before.state.entryPrice;
      var stopLoss, takeProfit := LongStopLoss(e, slPercent), LongTakeProfit(e, tpPercent);
      && (bars[i].low <= stopLoss ==>
            after.trades == before.trades + [Trade(e, stopLoss)] && after.state.position == 0)
      && (bars[i].low > stopLoss && bars[i].high >= takeProfit ==>
            after.trades == before.trades + [Trade(e, takeProfit)] && after.state.position == 0)
      && (bars[i].low > stopLoss && bars[i].high < takeProfit ==> after == before)
  {
  }

  /** While short at bar i: the stop-loss exit (High reaching it) wins over
      the take-profit. Because the P&L is `exit - entry` on either side, the
      winning take-profit exit is recorded as a loss of `entry * tp_percent`
      and the losing stop-loss exit as a gain of `entry * sl_percent`. */
  lemma ShortExit(bars: seq<Bar>, emas: Emas, tpPercent: real, slPercent: real, i: nat)
    requires WellFormed(bars, emas) && i < |bars|
    requires Run(bars, emas, tpPercent, slPercent, i).state.position == -1
    ensures var before := Run(bars, emas, tpPercent, slPercent, i);
      var after := Run(bars, emas, tpPercent, slPercent, i + 1);
      var e := before.state.entryPrice;
      var stopLoss, takeProfit := ShortStopLoss(e, slPercent), ShortTakeProfit(e, tpPercent);
      && (bars[i].high >= stopLoss ==>
            after.trades == before.trades + [Trade(e, stopLoss)] && after.state.position == 0
            && Pnl(Trade(e, stopLoss)) == e * slPercent)
      && (bars[i].high < stopLoss && bars[i].low <= takeProfit ==>
            after.trades == before.trades + [Trade(e, takeProfit)] && after.state.position == 0
            && Pnl(Trade(e, takeProfit)) == -(e * tpPercent))
      && (bars[i].high < stopLoss && bars[i].low > takeProfit ==> after == before)
  {
    var e := Run(bars, emas, tpPercent, slPercent, i).state.entryPrice;
    assert ShortStopLoss(e, slPercent) - e == e * slPercent;
    assert ShortTakeProfit(e, tpPercent) - e == -(e * tpPercent);
  }

  /** Every recorded trade entered at the close of some bar and left at one
      of the four level formulas of that entry price. */
  predicate AtLevel(bars: seq<Bar>, t: Trade, tpPercent: real, slPercent: real) {
    && (exists b :: 0 <= b < |bars| && bars[b].close == t.entry)
    && (t.exit == LongStopLoss(t.entry, slPercent) || t.exit == LongTakeProfit(t.entry, tpPercent)
        || t.exit == ShortStopLoss(t.entry, slPercent) || t.exit == ShortTakeProfit(t.entry, tpPercent))
  }

  lemma {:induction false} TradesAtLevels(bars: seq<Bar>, emas: Emas, tpPercent: real, slPercent: real, k: nat)
    requires WellFormed(bars, emas) && k <= |bars|
    ensures var t := Run(bars, emas, tpPercent, slPercent, k);
      && (forall j :: 0 <= j < |t.trades| ==> AtLevel(bars, t.trades[j], tpPercent, slPercent))
      && (t.state.position != 0 ==> exists b :: 0 <= b < k && bars[b].close == t.state.entryPrice)
    decreases k
  {
    if k > 0 {
      TradesAtLevels(bars, emas, tpPercent, slPercent, k - 1);
      var t := Run(bars, emas, tpPercent, slPercent, k - 1);
      var o := Step(t.state, bars, emas, k - 1, tpPercent, slPercent);
      if o.trade.Some? {
        assert t.state.position != 0;
        var b :| 0 <= b < k - 1 && bars[b].close == t.state.entryPrice;
        assert AtLevel(bars, o.trade.value, tpPercent, slPercent);
      }
      if o.state.position != 0 && t.state.position == 0 {
        assert bars[k - 1].close == o.state.entryPrice;
      }
    }
  }

  /** `total_pnl` is the sum of the trade P&Ls (0 with no trades), and the
      win rate is the fraction of winners, hence in [0, 1]. */
  lemma SummaryOfRun(bars: seq<Bar>, emas: Emas, tpPercent: real, slPercent: real)
    requires WellFormed(bars, emas)
    ensures var trades := Run(bars, emas, tpPercent, slPercent, |bars|).trades;
      var r := Summarize(trades);
      && r.totalPnl == SumPnl(trades)
      && 0.0 <= r.winRate <= 1.0
      && (trades != [] ==> r.winRate * |trades| as real == Wins(trades) as real)
  {
  }
}
