/** Shared vocabulary of the backtest scripts: OHLC bars, pandas NaN cells,
    NaN-aware comparisons and the folds (sum, max, min) applied to columns. */
module Market {

  /** One OHLC row of the price table. */
  datatype Bar = Bar(open: real, high: real, low: real, close: real)

  /** A pandas cell that may hold NaN: `None` is NaN. */
  datatype Option<T> = None | Some(value: T)

  /** Every close is positive, so a close used as an entry price can divide. */
  predicate PositiveCloses(bars: seq<Bar>) {
    forall i :: 0 <= i < |bars| ==> bars[i].close > 0.0
  }

  // Comparisons against a cell that may be NaN: as in pandas and NumPy,
  // every comparison with NaN is false.

  predicate AtMost(x: real, y: Option<real>) {
    y.Some? && x <= y.value
  }

  predicate AtLeast(x: real, y: Option<real>) {
    y.Some? && x >= y.value
  }

  predicate Below(x: real, y: Option<real>) {
    y.Some? && x < y.value
  }

  predicate Above(x: real, y: Option<real>) {
    y.Some? && x > y.value
  }

  predicate Greater(x: Option<real>, y: Option<real>) {
    x.Some? && y.Some? && x.value > y.value
  }

  predicate Less(x: Option<real>, y: Option<real>) {
    x.Some? && y.Some? && x.value < y.value
  }

  /** Sum of a column, folded from the front. */
  function Sum(xs: seq<real>): real {
    if xs == [] then 0.0 else Sum(xs[..|xs| - 1]) + xs[|xs| - 1]
  }

  /** `Series.sum()`: NaN cells are skipped. */
  function SumDefined(xs: seq<Option<real>>): real {
    if xs == [] then 0.0
    else SumDefined(xs[..|xs| - 1]) + (match xs[|xs| - 1] case None => 0.0 case Some(v) => v)
  }

  /** `Series.max()`: NaN for an empty window, otherwise the largest element. */
  function MaxOf(xs: seq<real>): (m: Option<real>)
    ensures m.None? <==> xs == []
  {
    if xs == [] then None
    else
      var rest := MaxOf(xs[..|xs| - 1]);
      if rest.None? || xs[|xs| - 1] > rest.value then Some(xs[|xs| - 1]) else rest
  }

  /** `Series.min()`: NaN for an empty window, otherwise the smallest element. */
  function MinOf(xs: seq<real>): (m: Option<real>)
    ensures m.None? <==> xs == []
  {
    if xs == [] then None
    else
      var rest := MinOf(xs[..|xs| - 1]);
      if rest.None? || xs[|xs| - 1] < rest.value then Some(xs[|xs| - 1]) else rest
  }

  /** The maximum of a non-empty column is one of its elements and bounds
      all of them. */
  lemma {:induction false} MaxOfAttained(xs: seq<real>) returns (i: nat)
    requires xs != []
    ensures i < |xs| && MaxOf(xs) == Some(xs[i])
    ensures forall j :: 0 <= j < |xs| ==> xs[j] <= xs[i]
  {
    var init := xs[..|xs| - 1];
    if init == [] {
      i := 0;
    } else {
      var r := MaxOfAttained(init);
      assert forall j :: 0 <= j < |init| ==> xs[j] == init[j];
      if xs[|xs| - 1] > init[r] {
        i := |xs| - 1;
      } else {
        i := r;
      }
    }
  }

  /** The minimum of a non-empty column is one of its elements and bounds
      all of them. */
  lemma {:induction false} MinOfAttained(xs: seq<real>) returns (i: nat)
    requires xs != []
    ensures i < |xs| && MinOf(xs) == Some(xs[i])
    ensures forall j :: 0 <= j < |xs| ==> xs[i] <= xs[j]
  {
    var init := xs[..|xs| - 1];
    if init == [] {
      i := 0;
    } else {
      var r := MinOfAttained(init);
      assert forall j :: 0 <= j < |init| ==> xs[j] == init[j];
      if xs[|xs| - 1] < init[r] {
        i := |xs| - 1;
      } else {
        i := r;
      }
    }
  }

  /** The High column of bars lo..hi-1 (`High.iloc[lo:hi]`). */
  function Highs(bars: seq<Bar>, lo: nat, hi: nat): (r: seq<real>)
    requires lo <= hi <= |bars|
    ensures |r| == hi - lo && forall j :: 0 <= j < hi - lo ==> r[j] == bars[lo + j].high
  {
    seq(hi - lo, j requires 0 <= j < hi - lo => bars[lo + j].high)
  }

  /** The Low column of bars lo..hi-1 (`Low.iloc[lo:hi]`). */
  function Lows(bars: seq<Bar>, lo: nat, hi: nat): (r: seq<real>)
    requires lo <= hi <= |bars|
    ensures |r| == hi - lo && forall j :: 0 <= j < hi - lo ==> r[j] == bars[lo + j].low
  {
    seq(hi - lo, j requires 0 <= j < hi - lo => bars[lo + j].low)
  }

  /** `Series.rolling(p).mean()` at row i: NaN until the window holds p
      rows, then the mean of rows i-p+1..i. */
  function RollingMean(xs: seq<real>, p: nat, i: nat): (r: Option<real>)
    requires 1 <= p && i < |xs|
    ensures r.None? <==> i + 1 < p
  {
    if i + 1 < p then None else Some(Sum(xs[i + 1 - p..i + 1]) / (p as real))
  }

  /** Over a non-empty window of bars lo..hi-1, `High.max()` is the High of
      some bar j of the window and `Low.min()` the Low of some bar k, and
      they bound every High and Low of the window. */
  lemma WindowExtremes(bars: seq<Bar>, lo: nat, hi: nat) returns (j: nat, k: nat)
    requires lo < hi <= |bars|
    ensures lo <= j < hi && lo <= k < hi
    ensures MaxOf(Highs(bars, lo, hi)) == Some(bars[j].high)
    ensures MinOf(Lows(bars, lo, hi)) == Some(bars[k].low)
    ensures forall m :: lo <= m < hi ==> bars[m].high <= bars[j].high
    ensures forall m :: lo <= m < hi ==> bars[k].low <= bars[m].low
  {
    var highs, lows := Highs(bars, lo, hi), Lows(bars, lo, hi);
    var a := MaxOfAttained(highs);
    var b := MinOfAttained(lows);
    j, k := lo + a, lo + b;
    forall m | lo <= m < hi
      ensures bars[m].high <= bars[j].high && bars[k].low <= bars[m].low
    {
      assert highs[m - lo] == bars[m].high;
      assert lows[m - lo] == bars[m].low;
    }
  }

  /** Appending one cell adds it to the sum. */
  lemma SumSnoc(xs: seq<real>, x: real)
    ensures Sum(xs + [x]) == Sum(xs) + x
  {
    assert (xs + [x])[..|xs|] == xs;
  }

  /** Appending one cell adds it to the NaN-skipping sum. */
  lemma SumDefinedSnoc(xs: seq<Option<real>>, x: Option<real>)
    ensures SumDefined(xs + [x]) == SumDefined(xs) + (match x case None => 0.0 case Some(v) => v)
  {
    assert (xs + [x])[..|xs|] == xs;
  }

  /** A count of at most `b` rows out of `b > 0` is a fraction in [0, 1],
      and scaling it back by `b` gives the count. */
  lemma FractionBounds(a: nat, b: nat)
    requires a <= b && b > 0
    ensures 0.0 <= a as real / b as real <= 1.0
    ensures (a as real / b as real) * b as real == a as real
  {
    assert a as real / b as real <= b as real / b as real;
  }
}
