# Single-position backtest machines, modelled in Dafny

The repository is a set of Python trading scripts. Each one walks an ordered table of OHLC bars with a single position: flat, long or short. It holds an entry price, opens the position on a signal and closes it at a stop-loss or take-profit level. Some scripts also close on an opposite signal. Each script then folds the per-trade P&L into a total, a win rate or a cash balance. The scripts differ in small ways, and each one is modelled as written:

- `cloud_test.py` and `ema_slope_finder.py` (Ichimoku cloud):
  - signals come from the conversion and base lines (window max/min midpoints) and an EMA;
  - the exit levels come from the previous row of the signals table;
  - an opposite signal reverses the position;
  - `ema_slope_finder.py` adds an objective with period clamping and a NaN guard.
- `fractal.py`:
  - four-point fractal markers;
  - a long-only machine with levels recomputed from the entry price on every bar, the entry bar included;
  - the cumulative P&L as a percentage of the initial balance.
- `fractal_test.py`:
  - symmetric fractals over a window;
  - a long/short machine that ignores fractals while a position is open;
  - the compounded return, trade count and win rate.
- `3ema.py`:
  - three-EMA entries against the previous close, which at bar 0 is the last bar's close;
  - percentage levels;
  - a trade list;
  - a total P&L recorded as `exit - entry` even for shorts, and a win rate.
- `high_low.py`:
  - an N-bar breakout long-only machine with cash;
  - a grid search that keeps the first strictly best `n`.

Layout: one module per script, plus two shared modules.

- `Market` (`market.dfy`) holds:
  - bars and NaN cells (`Option<real>`);
  - NaN-aware comparisons, which are always false against NaN;
  - sums, max/min over windows, and rolling means.
- `Ichimoku` (`ichimoku.dfy`) is the specification the two Ichimoku scripts share. Their return loops are identical, so it holds:
  - the midline;
  - the signal table;
  - the return machine and its lemmas.
- `CloudTest` (`cloud_test.dfy`) models the strategy object as a class. Its fields are the tables that its methods replace.
- `EmaSlopeFinder` (`ema_slope_finder.dfy`), `Fractal` (`fractal.dfy`), `FractalTest` (`fractal_test.dfy`), `ThreeEma` (`three_ema.dfy`) and `HighLow` (`high_low.dfy`) model the other scripts.

How the loops are modelled:

- Every loop of the source is a `method` with a `while` loop.
- The loop invariant ties the locals to a prefix-recursive specification function `Run(..., k)`. That function gives the state after bars `0..k-1` and the cells written so far.
- The property lemmas are stated about `Run`.
- Cell writes into a column become updates of a local sequence.

Conventions:

- Prices are `real`.
- A pandas NaN cell is `None`.
- Where a return divides by the entry price, the closes are assumed positive (`PositiveCloses`).

## Model

| member | source | states |
|---|---|---|
| Market.RollingMean | cloud_test.py:40 | NaN until the window holds `p` rows, otherwise the mean of the last `p` values |
| Market.WindowExtremes | high_low.py:14-15 | over a non-empty window, `max()` is the High of a bar of the window and bounds every High; `min()` is the Low of a bar of the window and bounds every Low |
| Ichimoku.Midline | cloud_test.py:65-73 | the rolling midline column for a period has one cell per bar |
| Ichimoku.MidpointIsWindowMidrange | cloud_test.py:65-73 | the midline at row i is NaN iff fewer than `p` rows exist; otherwise it is (highest High + lowest Low)/2 over rows i-p+1..i, with both extremes attained in the window |
| Ichimoku.SignalRowAt | cloud_test.py:51-63 | signal 1 iff conv > base and Close > EMA; -1 iff conv < base and Close < EMA (the sell assignment runs second); long rows get SL = Close - ATR*sl, TP = Close + ATR*tp; short rows mirrored; other rows keep 0 / 0.0 / 0.0; NaN lines give no signal |
| Ichimoku.SignalTable | cloud_test.py:42-63 | one row per bar, each given by the row rule |
| Ichimoku.Step | cloud_test.py:81-109 | one loop iteration keeps the position in {-1,0,1} with a positive entry price while open |
| Ichimoku.Run | cloud_test.py:75-111 | bar 0 is never processed; the run writes one cell per bar and stays in a reachable state |
| Ichimoku.Returns | cloud_test.py:75-111 | the `returns` Series of the whole run has one cell per bar |
| Ichimoku.RunPrefix | cloud_test.py:80-110 | later bars never rewrite an earlier `returns` cell |
| Ichimoku.ReturnAt | cloud_test.py:80-110 | the final `returns[i]` and the state after bar i are those of the step at bar i from the state before it |
| Ichimoku.FirstBarNeverProcessed | cloud_test.py:76-80 | `returns[0]` stays NaN |
| Ichimoku.EntryFromFlat | cloud_test.py:81-87 | from flat, signal 1 opens a long and -1 a short at Close[i], writing nothing; any other signal changes nothing |
| Ichimoku.LongExitPriority | cloud_test.py:88-98 | while long: stop-loss (Low <= SL[i-1]) first, even if TP is also hit, with return (SL-entry)/entry; then take-profit; then reversal on -1, which records (Close-entry)/entry and opens a short at Close in the same step; otherwise nothing changes |
| Ichimoku.ShortExitPriority | cloud_test.py:99-109 | the mirror for shorts: High >= SL[i-1] first, then Low <= TP[i-1], then reversal on 1, with returns (entry-level)/entry |
| Ichimoku.ReturnIffClose | cloud_test.py:76-111 | a `returns` cell is non-NaN exactly on bars where an open position is closed or reversed, so a position open after the last bar records nothing |
| Ichimoku.RunReadsPrefix | cloud_test.py:80-109 | the run up to bar k reads only the first k rows of the signals table |
| Ichimoku.ExitLevelsFromPreviousRow | cloud_test.py:89-104 | the levels tested at bar i are those of row i-1: changing SL/TP of row i or later leaves `returns[i]` and the next state unchanged |
| Ichimoku.FlatRowLevelsForceExit | cloud_test.py:89-104 | after a signal-0 row, whose levels stay 0.0 (lines 45-46), an open position closes on the next bar: a long at TP 0.0 with return -1, a short at SL 0.0 with return +1 |
| CloudTest.TrueRange | cloud_test.py:32-39 | the true range is the largest of High-Low, abs(High-prevClose) and abs(Low-prevClose), and equals one of them; on bar 0 (NaN shift skipped) it is High-Low |
| CloudTest.TrueRanges | cloud_test.py:32-39 | one true range per bar |
| CloudTest.IchimokuCloudStrategy.constructor | cloud_test.py:8-21 | the eight parameters with their defaults are stored; the tables start empty |
| CloudTest.IchimokuCloudStrategy.LoadData | cloud_test.py:23-25 | the price table is replaced by the given bars; its EMA and ATR columns are discarded with the old table (so `CalculateSignals` needs `CalculateIndicators` again); the signals table stays |
| CloudTest.IchimokuCloudStrategy.CalculateAtr | cloud_test.py:31-40 | each ATR cell is the rolling mean of the true range over `period` bars |
| CloudTest.IchimokuCloudStrategy.CalculateIndicators | cloud_test.py:27-29 | the EMA column is set to the given column and the ATR column to `calculate_atr(atr_period)`; data and signals are unchanged |
| CloudTest.IchimokuCloudStrategy.CalculateConversionLine | cloud_test.py:65-68 | one midline cell per bar over `conversion_period` |
| CloudTest.IchimokuCloudStrategy.CalculateBaseLine | cloud_test.py:70-73 | one midline cell per bar over `base_period` |
| CloudTest.IchimokuCloudStrategy.CalculateSignals | cloud_test.py:42-63 | the signals table becomes the row-rule table of the current data, EMA and ATR; data, EMA and ATR are unchanged |
| CloudTest.IchimokuCloudStrategy.CalculateReturns | cloud_test.py:75-111 | the loop returns exactly the `returns` series of the specification run |
| EmaSlopeFinder.IchimokuCloud | ema_slope_finder.py:7-15 | conversion and base midlines, one cell per bar |
| EmaSlopeFinder.HighLowAtr | ema_slope_finder.py:24 | the ATR of this script is the rolling mean of High-Low, one cell per bar |
| EmaSlopeFinder.CalculateSignals | ema_slope_finder.py:17-40 | one row per bar by the same row rule, with this script's ATR |
| EmaSlopeFinder.CalculateReturns | ema_slope_finder.py:42-78 | the loop returns exactly the `returns` series of the shared specification run |
| EmaSlopeFinder.Trunc | ema_slope_finder.py:82 | `int(x)` truncates toward zero |
| EmaSlopeFinder.ClampPeriod | ema_slope_finder.py:82-85 | `max(1, int(x))` is at least 1, equals `int(x)` for x >= 1, and is 1 for x < 2 |
| EmaSlopeFinder.ClampPeriods | ema_slope_finder.py:82-85 | every period passed on is at least 1 |
| EmaSlopeFinder.ObjectiveReturns | ema_slope_finder.py:87-89 | the series the objective inspects has one cell per bar |
| EmaSlopeFinder.ObjectiveFunction | ema_slope_finder.py:80-94 | the objective is either 0 or minus the NaN-skipping sum of the clamped pipeline's returns, and 0 on an empty table |
| EmaSlopeFinder.GuardedReturns | ema_slope_finder.py:91-94 | for any signals table, the NaN guard passes minus the sum of returns through exactly when the last bar closes or reverses a position, and gives 0 otherwise |
| EmaSlopeFinder.ObjectiveValue | ema_slope_finder.py:80-94 | the objective is minus the NaN-skipping sum of returns when the last bar closes or reverses a position, and 0 otherwise (empty data, one bar, or a last bar that closes nothing) |
| Fractal.CalculateFractals | fractal.py:12-29 | marker cells are High[i] / Low[i] exactly on rows w <= i < len-w whose High (Low) is strictly above (below) rows i-w, i-w+1, i+1 and i+w; all other rows are 0 |
| Fractal.MarkSignals | fractal.py:44-52 | a positive bullish marker gives signal 1 with Entry_Price = Close; otherwise a positive bearish marker gives -1 with Exit_Price = Close; bullish wins; other cells stay 0 |
| Fractal.Step | fractal.py:58-81 | one iteration keeps the position in {0,1} (long-only) and adds exactly the cell it writes to `cumulative_pnl` |
| Fractal.Run | fractal.py:54-81 | one Trade_PnL cell per row and a position in {0,1} throughout |
| Fractal.CumulativeIsColumnSum | fractal.py:56-80 | `cumulative_pnl` is the sum of the Trade_PnL column |
| Fractal.RunPrefix | fractal.py:58-81 | later rows never rewrite an earlier Trade_PnL cell |
| Fractal.StepAt | fractal.py:58-81 | the final Trade_PnL[i] and the state after row i are those of the step at row i |
| Fractal.BuyRowChecksLevels | fractal.py:59-81 | a buy row (re)enters at Entry_Price without a trade, even while long, and the levels are checked on that same row: stop-loss first with P&L -price*sl_multiplier, then take-profit with +price*tp_multiplier, else still long at the new price |
| Fractal.SellRow | fractal.py:63-68 | a sell row closes an open long at Exit_Price with P&L Exit_Price - previous_price; while flat it does nothing |
| Fractal.HeldLongChecksLevels | fractal.py:70-81 | on other rows an open long is closed at the stop-loss first, otherwise at the take-profit, with the P&Ls above; otherwise nothing changes |
| Fractal.PositionLoop | fractal.py:54-81 | the loop produces exactly the specification's Trade_PnL column, and `cumulative_pnl` is its sum |
| Fractal.BacktestStrategy | fractal.py:32-83 | the columns are the marker, signal and price columns above and the specification's Trade_PnL; the result is sum(Trade_PnL)/initial_balance*100 |
| FractalTest.IsBullishFractal | fractal_test.py:23-30 | false when i < w or i >= len-w; otherwise true iff every Low at distance 1..w on both sides is strictly above Low[i] |
| FractalTest.IsBearishFractal | fractal_test.py:32-39 | false outside the range; otherwise true iff every High at distance 1..w on both sides is strictly below High[i] |
| FractalTest.Step | fractal_test.py:51-82 | one iteration keeps the position in {-1,0,1} with a positive entry price while open |
| FractalTest.Run | fractal_test.py:51-82 | one row per bar and a reachable state throughout |
| FractalTest.BacktestStrategy | fractal_test.py:41-84 | with the defaults window 2, stop-loss 4.84% and take-profit 4.45%, the loop writes exactly the specification's five columns (Signal, Position, Entry_Price, Exit_Price, PnL) |
| FractalTest.RunPrefix | fractal_test.py:51-82 | later bars never rewrite an earlier row |
| FractalTest.StepAt | fractal_test.py:51-82 | the final row i and the state after bar i are those of the step at bar i |
| FractalTest.LevelReturns | fractal_test.py:67-82 | a stop-loss exit returns exactly -sl_pct/100 and a take-profit exit +tp_pct/100, long or short |
| FractalTest.EntryRule | fractal_test.py:52-64 | from flat: a bullish fractal opens a long at Close, otherwise a bearish one a short; the entry row records side, position and price and no exit; otherwise nothing is written |
| FractalTest.LongExit | fractal_test.py:65-74 | while long, fractals are ignored and the row records position 1; SL wins whenever Low <= SL (exit SL, PnL -sl_pct/100), else TP (PnL +tp_pct/100); either way the bar ends flat; otherwise nothing changes |
| FractalTest.ShortExit | fractal_test.py:75-82 | while short, the mirror: High >= SL wins, then Low <= TP, PnL (entry-exit)/entry |
| FractalTest.CumulativeReturns | fractal_test.py:90 | the `Cumulative_Returns` column has one cell per row; its values are stated by `CumulativeReturnsAt` |
| FractalTest.GrowthOfTrades | fractal_test.py:90 | `prod(1 + PnL)` equals the product over the trade returns only (rows with PnL 0 do not count) |
| FractalTest.CumulativeReturnsAt | fractal_test.py:90 | the cumulative return at row k is the compounded return of the trades closed up to k, and it is flat across rows with PnL 0 |
| FractalTest.TotalTrades | fractal_test.py:117 | the number of rows with a non-zero `Signal` is at most the number of rows |
| FractalTest.WinningTrades | fractal_test.py:118 | the number of rows with a positive `PnL` is at most the number of rows |
| FractalTest.LosingTrades | fractal_test.py:119 | no row is both winner and loser: winning plus losing rows never exceed the rows |
| FractalTest.WinRate | fractal_test.py:120 | `win_rate` is 0 when no trade is counted, and never negative |
| FractalTest.TotalReturn | fractal_test.py:121 | `total_return` is the compounded return of the trade P&Ls only, minus 1 |
| FractalTest.StepCounts | fractal_test.py:51-82 | one bar opens a trade only from flat and books a non-zero P&L only from an open position |
| FractalTest.ClosedNeverExceedOpened | fractal_test.py:117-119 | winning rows plus losing rows plus the open position never exceed the entry rows (`total_trades`) |
| FractalTest.WinRateBounds | fractal_test.py:117-120 | winning + losing <= total trades, and `win_rate` (0 with no trades) lies in [0, 1] |
| ThreeEma.Step | 3ema.py:23-44 | one iteration keeps the position in {-1,0,1} |
| ThreeEma.Run | 3ema.py:22-44 | the position stays in {-1,0,1} over the run |
| ThreeEma.PrevClose | 3ema.py:24-27 | `Close[i-1]` reads bar (i - 1) mod len: the previous bar, and the last bar at i = 0 |
| ThreeEma.SumPnl | 3ema.py:48-49 | `total_pnl`; when every trade wins, it is positive |
| ThreeEma.Wins | 3ema.py:50 | the number of trades with positive P&L is at most the number of trades |
| ThreeEma.Summarize | 3ema.py:46-53 | with no trades the result is exactly (0, 0); the win rate always lies in [0, 1], and times the trade count it is the number of winners |
| ThreeEma.Backtest | 3ema.py:13-53 | the loop builds exactly the specification's trade list and returns its aggregation |
| ThreeEma.RunPrefix | 3ema.py:36-43 | the trade list only grows: earlier trades are never rewritten |
| ThreeEma.EntryRule | 3ema.py:23-29 | from flat: long iff EMA_Short > EMA_Medium and EMA_Long > Close[i-1] (the last bar's close at i = 0); otherwise short under the mirrored rule; entry at Close[i]; an entry bar appends nothing |
| ThreeEma.LongExit | 3ema.py:31-37 | while long: exit at SL = entry*(1-sl) when Low <= SL, else at TP = entry*(1+tp) when High >= TP; the trade (entry, exit) is appended and the bar ends flat; otherwise nothing changes |
| ThreeEma.ShortExit | 3ema.py:38-48 | while short: exit at SL = entry*(1+sl) when High >= SL, else at TP = entry*(1-tp); because PnL is exit - entry, the TP exit records -entry*tp and the SL exit +entry*sl |
| ThreeEma.TradesAtLevels | 3ema.py:22-44 | every recorded trade entered at some bar's close and exited at one of the four level formulas of its entry |
| ThreeEma.SummaryOfRun | 3ema.py:46-53 | `total_pnl` is the sum of exit - entry, and `win_rate` times the number of trades is the number of winners, in [0, 1] |
| HighLow.Step | high_low.py:12-28 | one iteration keeps the position in {0,1} (long-only) |
| HighLow.Run | high_low.py:12-28 | bars before index n are never visited and the position stays in {0,1} |
| HighLow.FinalCash | high_low.py:8-30 | the returned cash is 10000 plus the P&L of every sell in the run |
| HighLow.BacktestStrategy | high_low.py:7-30 | the loop returns exactly the specification's final cash |
| HighLow.CashIsStartPlusPnl | high_low.py:8-30 | cash is 10000 plus the sum of the closed trades' exit - entry; an open position adds nothing |
| HighLow.BelowLowestLow | high_low.py:14-18 | Close[i] < lowest_low iff the window is non-empty and Close[i] is below every Low of bars i-n..i-1 (bar i excluded) |
| HighLow.AboveHighestHigh | high_low.py:15-24 | Close[i] > highest_high iff the window is non-empty and Close[i] is above every High of bars i-n..i-1 |
| HighLow.BreakoutRule | high_low.py:12-28 | a flat machine buys at Close[i] exactly on a break below all n previous Lows; a long one sells exactly on a break above all n previous Highs, booking the P&L; at most one action per bar |
| HighLow.HoldLong | high_low.py:18-27 | a bar that leaves a long machine long changes neither cash nor entry price |
| HighLow.BuyBar | high_low.py:18-21 | a bar that takes a flat machine long closed below the lowest Low of the window, and the entry price is that close |
| HighLow.EntryIsLastBuy | high_low.py:18-27 | while long, the entry price is the close of the most recent buy bar, and the position has been held on every bar since |
| HighLow.SearchBestN | high_low.py:33-41 | the search returns n in 2..99 with the largest final cash, and every smaller n has strictly less, so the first best n wins |

## Left out

- Loading data: `read_csv`, `to_datetime`, `dropna` and the column and emptiness checks (cloud_test.py:23-25, fractal_test.py:7-21, high_low.py:4). Bars are a parameter.
- Downloading data: `yahoo.py`, `data_downloader.py` and `fetch_data` (3ema.py:6-8). These are I/O and foreign calls.
- The optimisers: scipy's L-BFGS-B (ema_slope_finder.py:96-108) and the optuna studies (fractal.py:86-96, 3ema.py:55-76). These are foreign libraries. Only the objectives they call are modelled.
- `william/fisher_test.py`: vectorised floating-point numerics with no state machine. It is not part of this model.
- EMA columns (`ewm`): they are foreign pandas numerics, so they are given as inputs. In `EmaSlopeFinder` they are a function of the period.
- CloudTest.IchimokuCloudStrategy.CalculateIndicators: the EMA column is a parameter rather than computed from Close.
- Monte-Carlo simulation, plotting and every `print`, including the ones inside the high_low loop.
- IEEE floating point: prices are exact reals and NaN is `None`. Rounding, infinities and NaN arithmetic beyond comparisons are not modelled.
- pandas chained assignment (`df['X'].iloc[i] = v`, fractal.py:21, 47, 66) and int-dtype columns receiving floats (fractal.py:13-14, 40-42). These may silently drop the write. The model performs the intended write.
- The module-level replay at fractal.py:105-150: it repeats `backtest_strategy`. It is not modelled beyond `Fractal.CumulativeIsColumnSum`, which states the sum it recomputes.
- EmaSlopeFinder.CalculateSignals: the model does not add `EMA` and `ATR` columns to the caller's `data` frame. Only the returned signals table is modelled.
- CloudTest.IchimokuCloudStrategy.CalculateSignals: rolling windows shorter than 1 are excluded by precondition. These are pandas edge cases the strategy's defaults never reach.
- Ichimoku.Run: closes are assumed positive (`PositiveCloses`) because returns divide by the entry price. A zero close would give an infinite or NaN return in Python. The assumption also excludes negative closes, which Python divides by without trouble; the model says nothing about tables holding them.
- FractalTest.Run: closes are assumed positive for the same reason, which again also excludes negative closes that Python would accept.
- The `trading_volume` and `atr_scaling_factor` parameters of the strategy object are stored but never used by the source, so they play no role.
- The strategy object's `None` tables before `load_data` are modelled as empty tables.
