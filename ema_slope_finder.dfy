/** ema_slope_finder.py: the same Ichimoku strategy as free functions, and the
    objective that the box-constrained optimiser minimises. */
module EmaSlopeFinder {
  import opened Market
  import opened Ichimoku

  /** The frame `ichimoku_cloud` returns. */
  datatype Cloud = Cloud(conversionLine: seq<Option<real>>, baseLine: seq<Option<real>>)

  /** `ichimoku_cloud`: the two rolling midlines. */
  function IchimokuCloud(bars: seq<Bar>, conversionPeriod: int, basePeriod: int): (c: Cloud)
    requires conversionPeriod >= 1 && basePeriod >= 1
    ensures |c.conversionLine| == |bars| && |c.baseLine| == |bars|
  {
    Cloud(Midline(bars, conversionPeriod), Midline(bars, basePeriod))
  }

  /** The ATR of this script: the rolling mean of High - Low (no true range). */
  function HighLowAtr(bars: seq<Bar>, atrPeriod: int): (r: seq<Option<real>>)
    requires atrPeriod >= 1
    ensures |r| == |bars|
  {
    var ranges := seq(|bars|, i requires 0 <= i < |bars| => bars[i].high - bars[i].low);
    seq(|bars|, i requires 0 <= i < |ranges| => RollingMean(ranges, atrPeriod, i))
  }

  /** `calculate_signals`; `ema` is the exponential moving average of Close
      that pandas computes for `ema_period`. */
  function CalculateSignals(bars: seq<Bar>, ichimoku: Cloud, ema: seq<real>, atrPeriod: int,
                            slMultiplier: real, tpMultiplier: real): (t: seq<SignalRow>)
    requires |ichimoku.conversionLine| == |ichimoku.baseLine| == |ema| == |bars| && atrPeriod >= 1
    ensures |t| == |bars|
  {
    SignalTable(bars, ichimoku.conversionLine, ichimoku.baseLine, ema, HighLowAtr(bars, atrPeriod),
                slMultiplier, tpMultiplier)
  }

  /** `calculate_returns`: the bar-by-bar loop. */
  method CalculateReturns(bars: seq<Bar>, signals: seq<SignalRow>) returns (rets: seq<Option<real>>)
    requires |signals| == |bars| && PositiveCloses(bars)
    ensures rets == Returns(bars, signals)
  {
    var n := |signals|;
    rets := seq(n, _ => None);
    var position, entryPrice := 0, 0.0;
    var i := 1;
    while i < n
      invariant 1 <= i && (n == 0 || i <= n) && |rets| == n
      invariant n > 0 ==> Run(bars, signals, i) == Trace(State(position, entryPrice), rets[..i])
      invariant forall j :: i <= j < n ==> rets[j] == None
    {
      ghost var before := rets;
      if position == 0 {
        if signals[i].signal == 1 {
          position := 1;
          entryPrice := bars[i].close;
        } else if signals[i].signal == -1 {
          position := -1;
          entryPrice := bars[i].close;
        }
      } else if position == 1 {
        if AtMost(bars[i].low, signals[i - 1].sl) {
          rets := rets[i := Some((signals[i - 1].sl.value - entryPrice) / entryPrice)];
          position := 0;
        } else if AtLeast(bars[i].high, signals[i - 1].tp) {
          rets := rets[i := Some((signals[i - 1].tp.value - entryPrice) / entryPrice)];
          position := 0;
        } else if signals[i].signal == -1 {
          rets := rets[i := Some((bars[i].close - entryPrice) / entryPrice)];
          position := -1;
          entryPrice := bars[i].close;
        }
      } else if position == -1 {
        if AtLeast(bars[i].high, signals[i - 1].sl) {
          rets := rets[i := Some((entryPrice - signals[i - 1].sl.value) / entryPrice)];
          position := 0;
        } else if AtMost(bars[i].low, signals[i - 1].tp) {
          rets := rets[i := Some((entryPrice - signals[i - 1].tp.value) / entryPrice)];
          position := 0;
        } else if signals[i].signal == 1 {
          rets := rets[i := Some((entryPrice - bars[i].close) / entryPrice)];
          position := 1;
          entryPrice := bars[i].close;
        }
      }
      assert rets[..i + 1] == before[..i] + [rets[i]];
      i := i + 1;
    }
    assert n > 0 ==> rets == rets[..n];
  }

  // ---------------------------------------------------------------------
  // The objective
  // ---------------------------------------------------------------------

  /** The six coordinates the optimiser moves: four periods and two
      multipliers, all floats. */
  datatype Params = Params(conversionPeriod: real, basePeriod: real, emaPeriod: real,
                           atrPeriod: real, slMultiplier: real, tpMultiplier: real)

  /** The four periods after clamping. */
  datatype Periods = Periods(conversion: int, base: int, ema: int, atr: int)

  /** Python's `int(x)` on a float: truncation toward zero. */
  function Trunc(x: real): (r: int)
    ensures x >= 0.0 ==> r as real <= x < r as real + 1.0
    ensures x < 0.0 ==> r as real - 1.0 < x <= r as real
  {
    if x >= 0.0 then x.Floor else -((-x).Floor)
  }

  /** `max(1, int(x))`. */
  function ClampPeriod(x: real): (r: int)
    ensures r >= 1
    ensures x >= 1.0 ==> r == Trunc(x)
    ensures x < 2.0 ==> r == 1
  {
    var t := Trunc(x);
    if 1 >= t then 1 else t
  }

  /** The four clamped periods: every period passed on is at least 1. */
  function ClampPeriods(params: Params): (p: Periods)
    ensures p.conversion >= 1 && p.base >= 1 && p.ema >= 1 && p.atr >= 1
  {
    Periods(ClampPeriod(params.conversionPeriod), ClampPeriod(params.basePeriod),
            ClampPeriod(params.emaPeriod), ClampPeriod(params.atrPeriod))
  }

  /** The EMA columns pandas computes, one per period, each as long as the data. */
  ghost predicate EmaColumns(bars: seq<Bar>, emaOf: int -> seq<real>) {
    forall p :: p >= 1 ==> |emaOf(p)| == |bars|
  }

  /** The returns series the objective sums, for one parameter point. */
  function ObjectiveReturns(params: Params, bars: seq<Bar>, emaOf: int -> seq<real>): (r: seq<Option<real>>)
    requires PositiveCloses(bars) && EmaColumns(bars, emaOf)
    ensures |r| == |bars|
  {
    var periods := ClampPeriods(params);
    var ichimoku := IchimokuCloud(bars, periods.conversion, periods.base);
    var signals := CalculateSignals(bars, ichimoku, emaOf(periods.ema), periods.atr,
                                    params.slMultiplier, params.tpMultiplier);
    Returns(bars, signals)
  }

  /** The guard of `objective_function`: 0 when the series is empty or its
      last cell is NaN, otherwise minus the NaN-skipping sum. */
  function NanGuard(rets: seq<Option<real>>): real {
    if |rets| == 0 || rets[|rets| - 1].None? then 0.0 else -SumDefined(rets)
  }

  /** `objective_function`: either 0 or minus the sum of the pipeline's
      returns, and 0 on an empty table. */
  function ObjectiveFunction(params: Params, bars: seq<Bar>, emaOf: int -> seq<real>): (r: real)
    requires PositiveCloses(bars) && EmaColumns(bars, emaOf)
    ensures r == 0.0 || r == -SumDefined(ObjectiveReturns(params, bars, emaOf))
    ensures |bars| == 0 ==> r == 0.0
  {
    NanGuard(ObjectiveReturns(params, bars, emaOf))
  }

  /** For any signals table, the guard passes the sum of the returns through
      exactly when the last bar closes or reverses a position. */
  lemma GuardedReturns(bars: seq<Bar>, signals: seq<SignalRow>)
    requires |signals| == |bars| && PositiveCloses(bars)
    ensures var n := |bars|;
      NanGuard(Returns(bars, signals)) ==
        if n >= 2 && Before(bars, signals, n - 1).position != 0
                  && Before(bars, signals, n).position != Before(bars, signals, n - 1).position
        then -SumDefined(Returns(bars, signals))
        else 0.0
  {
    var n := |bars|;
    if n >= 2 {
      ReturnIffClose(bars, signals, n - 1);
    } else if n == 1 {
      FirstBarNeverProcessed(bars, signals);
    }
  }

  /** The objective is minus the sum of the recorded trade returns when the
      last bar closes or reverses a position, and 0 otherwise, whatever the
      earlier trades earned. */
  lemma ObjectiveValue(params: Params, bars: seq<Bar>, emaOf: int -> seq<real>)
    requires PositiveCloses(bars) && EmaColumns(bars, emaOf)
    ensures var periods := ClampPeriods(params);
      var signals := CalculateSignals(bars, IchimokuCloud(bars, periods.conversion, periods.base),
                                      emaOf(periods.ema), periods.atr, params.slMultiplier, params.tpMultiplier);
      var n := |bars|;
      ObjectiveFunction(params, bars, emaOf) ==
        if n >= 2 && Before(bars, signals, n - 1).position != 0
                  && Before(bars, signals, n).position != Before(bars, signals, n - 1).position
        then -SumDefined(Returns(bars, signals))
        else 0.0
  {
    var periods := ClampPeriods(params);
    var signals := CalculateSignals(bars, IchimokuCloud(bars, periods.conversion, periods.base),
                                    emaOf(periods.ema), periods.atr, params.slMultiplier, params.tpMultiplier);
    assert ObjectiveReturns(params, bars, emaOf) == Returns(bars, signals);
    GuardedReturns(bars, signals);
  }
}
