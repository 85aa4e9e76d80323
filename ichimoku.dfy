/** The Ichimoku-cloud strategy shared by cloud_test.py and ema_slope_finder.py:
    conversion and base lines, the signal table with its stop-loss and
    take-profit columns, and the bar-by-bar return machine. The two scripts'
    `calculate_returns` loops are the same code; both are specified by
    `Returns` below. */
module Ichimoku {
  import opened Market

  // ---------------------------------------------------------------------
  // Conversion and base lines
  // ---------------------------------------------------------------------

  /** `(High.rolling(p).max() + Low.rolling(p).min()) / 2` at bar i:
      NaN until the window holds p bars. */
  function MidpointAt(bars: seq<Bar>, p: nat, i: nat): Option<real>
    requires 1 <= p && i < |bars|
  {
    if i + 1 < p then None
    else
      var hi := MaxOf(Highs(bars, i + 1 - p, i + 1));
      var lo := MinOf(Lows(bars, i + 1 - p, i + 1));
      Some((hi.value + lo.value) / 2.0)
  }

  /** The whole rolling midline column for period p. */
  function Midline(bars: seq<Bar>, p: nat): (r: seq<Option<real>>)
    requires 1 <= p
    ensures |r| == |bars|
  {
    seq(|bars|, i requires 0 <= i < |bars| => MidpointAt(bars, p, i))
  }

  /** The midline at bar i is NaN exactly while fewer than p bars are
      available, and otherwise the midpoint of the highest High (found at
      bar j) and the lowest Low (found at bar k) of bars i-p+1..i. */
  lemma MidpointIsWindowMidrange(bars: seq<Bar>, p: nat, i: nat) returns (j: nat, k: nat)
    requires 1 <= p && i < |bars|
    ensures i + 1 < p ==> Midline(bars, p)[i] == None
    ensures i + 1 >= p ==>
      && i + 1 - p <= j <= i && i + 1 - p <= k <= i
      && Midline(bars, p)[i] == Some((bars[j].high + bars[k].low) / 2.0)
      && (forall m :: i + 1 - p <= m <= i ==> bars[m].high <= bars[j].high)
      && (forall m :: i + 1 - p <= m <= i ==> bars[k].low <= bars[m].low)
  {
    assert Midline(bars, p)[i] == MidpointAt(bars, p, i);
    j, k := i, i;
    if i + 1 >= p {
      j, k := WindowExtremes(bars, i + 1 - p, i + 1);
    }
  }

  // ---------------------------------------------------------------------
  // Signal table
  // ---------------------------------------------------------------------

  /** One row of the `signals` frame: the `Signal`, `SL` and `TP` columns.
      A level is NaN when the ATR of its row is NaN. */
  datatype SignalRow = SignalRow(signal: int, sl: Option<real>, tp: Option<real>)

  /** `Close + ATR * m`, NaN when the ATR is. */
  function AddAtr(close: real, atr: Option<real>, m: real): Option<real> {
    match atr
    case None => None
    case Some(a) => Some(close + a * m)
  }

  /** `Close - ATR * m`, NaN when the ATR is. */
  function SubAtr(close: real, atr: Option<real>, m: real): Option<real> {
    match atr
    case None => None
    case Some(a) => Some(close - a * m)
  }

  /** The row the signal code writes for one bar: every row starts as
      `0 / 0.0 / 0.0`, buy rows are set to 1, sell rows are then set to -1,
      and the levels are written on the rows whose signal is 1 or -1. */
  function SignalRowAt(close: real, conv: Option<real>, base: Option<real>, ema: real,
                       atr: Option<real>, slMult: real, tpMult: real): (row: SignalRow)
    ensures -1 <= row.signal <= 1
    ensures row.signal == 1 <==> Greater(conv, base) && close > ema
    ensures row.signal == -1 <==> Less(conv, base) && close < ema
    ensures row.signal == 1 ==> row.sl == SubAtr(close, atr, slMult) && row.tp == AddAtr(close, atr, tpMult)
    ensures row.signal == -1 ==> row.sl == AddAtr(close, atr, slMult) && row.tp == SubAtr(close, atr, tpMult)
    ensures row.signal == 0 ==> row.sl == Some(0.0) && row.tp == Some(0.0)
  {
    var buy := Greater(conv, base) && close > ema;
    var sell := Less(conv, base) && close < ema;
    var signal := if sell then -1 else if buy then 1 else 0;
    if signal == 1 then SignalRow(1, SubAtr(close, atr, slMult), AddAtr(close, atr, tpMult))
    else if signal == -1 then SignalRow(-1, AddAtr(close, atr, slMult), SubAtr(close, atr, tpMult))
    else SignalRow(0, Some(0.0), Some(0.0))
  }

  /** The signals frame for whole columns. */
  function SignalTable(bars: seq<Bar>, conv: seq<Option<real>>, base: seq<Option<real>>,
                       ema: seq<real>, atr: seq<Option<real>>, slMult: real, tpMult: real): (t: seq<SignalRow>)
    requires |conv| == |base| == |ema| == |atr| == |bars|
    ensures |t| == |bars|
    ensures forall i :: 0 <= i < |bars| ==>
      t[i] == SignalRowAt(bars[i].close, conv[i], base[i], ema[i], atr[i], slMult, tpMult)
  {
    seq(|bars|, i requires 0 <= i < |bars| =>
      SignalRowAt(bars[i].close, conv[i], base[i], ema[i], atr[i], slMult, tpMult))
  }

  // ---------------------------------------------------------------------
  // The return machine
  // ---------------------------------------------------------------------

  /** `position` (1 long, -1 short, 0 flat) and `entry_price`. */
  datatype State = State(position: int, entryPrice: real)

  /** The state after one bar and the cell written into `returns` (NaN if none). */
  datatype Outcome = Outcome(state: State, ret: Option<real>)

  /** The state after a prefix of bars and the `returns` cells so far. */
  datatype Trace = Trace(state: State, cells: seq<Option<real>>)

  /** A state the machine can be in: one of the three positions, and a
      positive entry price whenever a position is open. */
  predicate Reachable(s: State) {
    -1 <= s.position <= 1 && (s.position != 0 ==> s.entryPrice > 0.0)
  }

  const Start := State(0, 0.0)

  /** One iteration of the loop at bar i: `signal` is `Signal[i]` and `prev`
      is row i-1 of the signals frame, whose `SL` and `TP` are the levels
      tested. */
  function Step(s: State, bar: Bar, signal: int, prev: SignalRow): (o: Outcome)
    requires Reachable(s) && bar.close > 0.0
    ensures Reachable(o.state)
  {
    var e := s.entryPrice;
    if s.position == 0 then
      if signal == 1 then Outcome(State(1, bar.close), None)
      else if signal == -1 then Outcome(State(-1, bar.close), None)
      else Outcome(s, None)
    else if s.position == 1 then
      if AtMost(bar.low, prev.sl) then Outcome(State(0, e), Some((prev.sl.value - e) / e))
      else if AtLeast(bar.high, prev.tp) then Outcome(State(0, e), Some((prev.tp.value - e) / e))
      else if signal == -1 then Outcome(State(-1, bar.close), Some((bar.close - e) / e))
      else Outcome(s, None)
    else
      if AtLeast(bar.high, prev.sl) then Outcome(State(0, e), Some((e - prev.sl.value) / e))
      else if AtMost(bar.low, prev.tp) then Outcome(State(0, e), Some((e - prev.tp.value) / e))
      else if signal == 1 then Outcome(State(1, bar.close), Some((e - bar.close) / e))
      else Outcome(s, None)
  }

  /** The loop run over bars 1..k-1 (bar 0 is never processed): the state
      and the first k cells of `returns`. */
  function Run(bars: seq<Bar>, sigs: seq<SignalRow>, k: nat): (t: Trace)
    requires k <= |bars| == |sigs| && PositiveCloses(bars)
    ensures |t.cells| == k && Reachable(t.state)
    decreases k
  {
    if k == 0 then Trace(Start, [])
    else if k == 1 then Trace(Start, [None])
    else
      var t := Run(bars, sigs, k - 1);
      var o := Step(t.state, bars[k - 1], sigs[k - 1].signal, sigs[k - 2]);
      Trace(o.state, t.cells + [o.ret])
  }

  /** The `returns` Series of a whole run. */
  function Returns(bars: seq<Bar>, sigs: seq<SignalRow>): (r: seq<Option<real>>)
    requires |bars| == |sigs| && PositiveCloses(bars)
    ensures |r| == |bars|
  {
    Run(bars, sigs, |bars|).cells
  }

  /** The state just before bar i is processed. */
  function Before(bars: seq<Bar>, sigs: seq<SignalRow>, i: nat): State
    requires i <= |bars| == |sigs| && PositiveCloses(bars)
  {
    Run(bars, sigs, i).state
  }

  /** Later bars never rewrite earlier cells of `returns`. */
  lemma {:induction false} RunPrefix(bars: seq<Bar>, sigs: seq<SignalRow>, j: nat, k: nat)
    requires j <= k <= |bars| == |sigs| && PositiveCloses(bars)
    ensures Run(bars, sigs, k).cells[..j] == Run(bars, sigs, j).cells
    decreases k
  {
    if j < k {
      RunPrefix(bars, sigs, j, k - 1);
      if k >= 2 {
        assert Run(bars, sigs, k).cells[..k - 1] == Run(bars, sigs, k - 1).cells;
      }
    }
  }

  /** The final `returns[i]` is the cell written by the step at bar i, from
      the state the earlier bars left. */
  lemma ReturnAt(bars: seq<Bar>, sigs: seq<SignalRow>, i: nat)
    requires 1 <= i < |bars| == |sigs| && PositiveCloses(bars)
    ensures |Returns(bars, sigs)| == |bars|
    ensures Returns(bars, sigs)[i] == Step(Before(bars, sigs, i), bars[i], sigs[i].signal, sigs[i - 1]).ret
    ensures Before(bars, sigs, i + 1) == Step(Before(bars, sigs, i), bars[i], sigs[i].signal, sigs[i - 1]).state
  {
    RunPrefix(bars, sigs, i + 1, |bars|);
    assert Returns(bars, sigs)[i] == Run(bars, sigs, |bars|).cells[..i + 1][i];
  }

  /** Bar 0 is never processed: `returns[0]` stays NaN. */
  lemma FirstBarNeverProcessed(bars: seq<Bar>, sigs: seq<SignalRow>)
    requires 1 <= |bars| == |sigs| && PositiveCloses(bars)
    ensures Returns(bars, sigs)[0] == None
  {
    RunPrefix(bars, sigs, 1, |bars|);
    assert Returns(bars, sigs)[0] == Run(bars, sigs, |bars|).cells[..1][0];
  }

  /** From flat, signal 1 opens a long and -1 a short at the bar's close;
      nothing is written on an entry bar. */
  lemma EntryFromFlat(bars: seq<Bar>, sigs: seq<SignalRow>, i: nat)
    requires 1 <= i < |bars| == |sigs| && PositiveCloses(bars)
    requires Before(bars, sigs, i).position == 0
    ensures |Returns(bars, sigs)| == |bars| && Returns(bars, sigs)[i] == None
    ensures sigs[i].signal == 1 ==> Before(bars, sigs, i + 1) == State(1, bars[i].close)
    ensures sigs[i].signal == -1 ==> Before(bars, sigs, i + 1) == State(-1, bars[i].close)
    ensures sigs[i].signal != 1 && sigs[i].signal != -1 ==> Before(bars, sigs, i + 1) == Before(bars, sigs, i)
  {
    ReturnAt(bars, sigs, i);
  }

  /** While long, with the levels of row i-1: stop-loss first (even when the
      take-profit is also reached), then take-profit, then reversal on a -1
      signal, which closes at the close and opens a short there in the same
      step; otherwise nothing happens. */
  lemma LongExitPriority(bars: seq<Bar>, sigs: seq<SignalRow>, i: nat)
    requires 1 <= i < |bars| == |sigs| && PositiveCloses(bars)
    requires Before(bars, sigs, i).position == 1
    ensures |Returns(bars, sigs)| == |bars|
    ensures var e, prev, r, after := Before(bars, sigs, i).entryPrice, sigs[i - 1], Returns(bars, sigs)[i], Before(bars, sigs, i + 1);
      && (AtMost(bars[i].low, prev.sl) ==>
            r == Some((prev.sl.value - e) / e) && after == State(0, e))
      && (!AtMost(bars[i].low, prev.sl) && AtLeast(bars[i].high, prev.tp) ==>
            r == Some((prev.tp.value - e) / e) && after == State(0, e))
      && (!AtMost(bars[i].low, prev.sl) && !AtLeast(bars[i].high, prev.tp) && sigs[i].signal == -1 ==>
            r == Some((bars[i].close - e) / e) && after == State(-1, bars[i].close))
      && (!AtMost(bars[i].low, prev.sl) && !AtLeast(bars[i].high, prev.tp) && sigs[i].signal != -1 ==>
            r == None && after == Before(bars, sigs, i))
  {
    ReturnAt(bars, sigs, i);
  }

  /** The mirror for a short: stop-loss when High reaches `SL[i-1]`, then
      take-profit when Low reaches `TP[i-1]`, then reversal on a 1 signal. */
  lemma ShortExitPriority(bars: seq<Bar>, sigs: seq<SignalRow>, i: nat)
    requires 1 <= i < |bars| == |sigs| && PositiveCloses(bars)
    requires Before(bars, sigs, i).position == -1
    ensures |Returns(bars, sigs)| == |bars|
    ensures var e, prev, r, after := Before(bars, sigs, i).entryPrice, sigs[i - 1], Returns(bars, sigs)[i], Before(bars, sigs, i + 1);
      && (AtLeast(bars[i].high, prev.sl) ==>
            r == Some((e - prev.sl.value) / e) && after == State(0, e))
      && (!AtLeast(bars[i].high, prev.sl) && AtMost(bars[i].low, prev.tp) ==>
            r == Some((e - prev.tp.value) / e) && after == State(0, e))
      && (!AtLeast(bars[i].high, prev.sl) && !AtMost(bars[i].low, prev.tp) && sigs[i].signal == 1 ==>
            r == Some((e - bars[i].close) / e) && after == State(1, bars[i].close))
      && (!AtLeast(bars[i].high, prev.sl) && !AtMost(bars[i].low, prev.tp) && sigs[i].signal != 1 ==>
            r == None && after == Before(bars, sigs, i))
  {
    ReturnAt(bars, sigs, i);
  }

  /** A cell of `returns` is written exactly on the bars that close a position:
      an open position that is left flat or reversed. A position still open
      after the last bar is never closed, so it writes nothing. */
  lemma ReturnIffClose(bars: seq<Bar>, sigs: seq<SignalRow>, i: nat)
    requires 1 <= i < |bars| == |sigs| && PositiveCloses(bars)
    ensures |Returns(bars, sigs)| == |bars|
    ensures Returns(bars, sigs)[i].Some? <==>
      Before(bars, sigs, i).position != 0 && Before(bars, sigs, i + 1).position != Before(bars, sigs, i).position
  {
    ReturnAt(bars, sigs, i);
  }

  /** The run up to bar k reads only the first k rows of the signals frame. */
  lemma {:induction false} RunReadsPrefix(bars: seq<Bar>, sigs: seq<SignalRow>, sigs': seq<SignalRow>, k: nat)
    requires k <= |bars| == |sigs| == |sigs'| && PositiveCloses(bars)
    requires sigs[..k] == sigs'[..k]
    ensures Run(bars, sigs, k) == Run(bars, sigs', k)
    decreases k
  {
    if k >= 2 {
      assert sigs[..k - 1] == sigs[..k][..k - 1] && sigs'[..k - 1] == sigs'[..k][..k - 1];
      RunReadsPrefix(bars, sigs, sigs', k - 1);
      assert sigs[k - 1] == sigs[..k][k - 1] && sigs'[k - 1] == sigs'[..k][k - 1];
      assert sigs[k - 2] == sigs[..k][k - 2] && sigs'[k - 2] == sigs'[..k][k - 2];
    }
  }

  /** The exit levels tested at bar i are those of row i-1, not those of row
      i: replacing the `SL` and `TP` of row i (or of any later row) by
      anything leaves `returns[i]` and the state after bar i unchanged. */
  lemma ExitLevelsFromPreviousRow(bars: seq<Bar>, sigs: seq<SignalRow>, i: nat, j: nat,
                                  sl: Option<real>, tp: Option<real>)
    requires 1 <= i <= j < |bars| == |sigs| && PositiveCloses(bars)
    ensures var sigs' := sigs[j := SignalRow(sigs[j].signal, sl, tp)];
      |Returns(bars, sigs)| == |Returns(bars, sigs')| == |bars|
      && Returns(bars, sigs')[i] == Returns(bars, sigs)[i]
      && Before(bars, sigs', i + 1) == Before(bars, sigs, i + 1)
  {
    var sigs' := sigs[j := SignalRow(sigs[j].signal, sl, tp)];
    ReturnAt(bars, sigs, i);
    ReturnAt(bars, sigs', i);
    assert sigs[..i] == sigs'[..i];
    RunReadsPrefix(bars, sigs, sigs', i);
  }

  /** A row whose signal is 0 carries levels 0.0, and those are the levels the
      next bar tests. So an open position on the bar after such a row is
      closed there at 0.0 (prices being positive): a long at its take-profit
      with return -1, a short at its stop-loss with return +1. */
  lemma FlatRowLevelsForceExit(bars: seq<Bar>, conv: seq<Option<real>>, base: seq<Option<real>>,
                               ema: seq<real>, atr: seq<Option<real>>, slMult: real, tpMult: real, i: nat)
    requires |conv| == |base| == |ema| == |atr| == |bars| && PositiveCloses(bars)
    requires 1 <= i < |bars| && bars[i].low > 0.0 && bars[i].high >= bars[i].low
    requires var sigs := SignalTable(bars, conv, base, ema, atr, slMult, tpMult);
      sigs[i - 1].signal == 0 && Before(bars, sigs, i).position != 0
    ensures var sigs := SignalTable(bars, conv, base, ema, atr, slMult, tpMult);
      && Returns(bars, sigs)[i] == Some(if Before(bars, sigs, i).position == 1 then -1.0 else 1.0)
      && Before(bars, sigs, i + 1).position == 0
  {
    var sigs := SignalTable(bars, conv, base, ema, atr, slMult, tpMult);
    ReturnAt(bars, sigs, i);
    var s := Before(bars, sigs, i);
    assert sigs[i - 1].sl == Some(0.0) && sigs[i - 1].tp == Some(0.0);
    UnitReturns(s.entryPrice);
  }

  lemma UnitReturns(e: real)
    requires e > 0.0
    ensures (0.0 - e) / e == -1.0 && (e - 0.0) / e == 1.0
  {
  }
}
