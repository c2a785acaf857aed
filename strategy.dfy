/**
 * Signal generation: a fast/slow simple-moving-average crossover filtered by
 * the relative strength index (RSI). Prices are exact reals and a mean is
 * `Sum(s) / |s|`.
 */
module Strategy {
  import opened Wrappers
  import opened Models

  // ---------------------------------------------------------------------------
  // Sequence arithmetic
  // ---------------------------------------------------------------------------

  function Sum(s: seq<real>): real {
    if s == [] then 0.0 else Sum(s[..|s| - 1]) + s[|s| - 1]
  }

  function Mean(s: seq<real>): real
    requires |s| > 0
  {
    Sum(s) / (|s| as real)
  }

  /** The last `n` elements of `s`, or all of `s` when it is shorter: Python's `s[-n:]` for `n >= 1`. */
  function Tail<T>(s: seq<T>, n: nat): (t: seq<T>)
    ensures |t| == if |s| <= n then |s| else n
  {
    if |s| <= n then s else s[|s| - n..]
  }

  /** Entry `i` of the last `n` elements is entry `j = |s| - n + i` of `s`. */
  lemma TailAt<T>(s: seq<T>, n: nat, i: int, j: int)
    requires n <= |s| && 0 <= i < n && j == |s| - n + i
    ensures Tail(s, n)[i] == s[j]
  {
  }

  function Repeat(x: real, n: nat): (s: seq<real>)
    ensures |s| == n && forall i :: 0 <= i < n ==> s[i] == x
  {
    seq(n, _ => x)
  }

  lemma SumSnoc(s: seq<real>, x: real)
    ensures Sum(s + [x]) == Sum(s) + x
  {
    assert (s + [x])[..|s|] == s;
  }

  /** A sum of non-negative terms is non-negative, and it is zero only when every term is. */
  lemma {:induction false} SumNonNegative(s: seq<real>)
    requires forall i :: 0 <= i < |s| ==> s[i] >= 0.0
    ensures Sum(s) >= 0.0
    ensures Sum(s) == 0.0 <==> forall i :: 0 <= i < |s| ==> s[i] == 0.0
  {
    if s != [] {
      var init := s[..|s| - 1];
      SumNonNegative(init);
      if Sum(s) == 0.0 {
        forall i | 0 <= i < |s| ensures s[i] == 0.0 {
          if i < |s| - 1 { assert s[i] == init[i]; }
        }
      }
    }
  }

  lemma {:induction false} SumRepeat(x: real, n: nat)
    ensures Sum(Repeat(x, n)) == n as real * x
  {
    if n > 0 {
      assert Repeat(x, n) == Repeat(x, n - 1) + [x];
      SumSnoc(Repeat(x, n - 1), x);
      SumRepeat(x, n - 1);
    }
  }

  // ---------------------------------------------------------------------------
  // Relative strength index (compute_rsi)
  // ---------------------------------------------------------------------------

  /** What a price change adds to the gains, and to the losses (its absolute value when negative). */
  function Gain(delta: real): real { if delta >= 0.0 then delta else 0.0 }

  function Loss(delta: real): real { if delta >= 0.0 then 0.0 else -delta }

  /** The differences between consecutive prices, oldest first. */
  function Deltas(s: seq<real>): (ds: seq<real>)
    ensures |ds| == if |s| == 0 then 0 else |s| - 1
  {
    if |s| <= 1 then [] else Deltas(s[..|s| - 1]) + [s[|s| - 1] - s[|s| - 2]]
  }

  function Gains(ds: seq<real>): (g: seq<real>)
    ensures |g| == |ds|
  {
    if ds == [] then [] else Gains(ds[..|ds| - 1]) + [Gain(ds[|ds| - 1])]
  }

  function Losses(ds: seq<real>): (l: seq<real>)
    ensures |l| == |ds|
  {
    if ds == [] then [] else Losses(ds[..|ds| - 1]) + [Loss(ds[|ds| - 1])]
  }

  lemma {:induction false} DeltasAt(s: seq<real>, k: int)
    requires 0 <= k < |s| - 1
    ensures Deltas(s)[k] == s[k + 1] - s[k]
  {
    if k < |s| - 2 {
      DeltasAt(s[..|s| - 1], k);
    }
  }

  lemma {:induction false} GainsLossesAt(ds: seq<real>, k: int)
    requires 0 <= k < |ds|
    ensures Gains(ds)[k] == Gain(ds[k]) && Losses(ds)[k] == Loss(ds[k])
  {
    if k < |ds| - 1 {
      GainsLossesAt(ds[..|ds| - 1], k);
    }
  }

  /** Entry `i` of the last `period` gains (losses) is the gain (loss) of change `j = |ds| - period + i`. */
  lemma ChangeWindowAt(ds: seq<real>, period: int, i: int, j: int)
    requires 1 <= period <= |ds| && 0 <= i < period && j == |ds| - period + i
    ensures Tail(Gains(ds), period)[i] == Gain(ds[j])
    ensures Tail(Losses(ds), period)[i] == Loss(ds[j])
  {
    TailAt(Gains(ds), period, i, j);
    TailAt(Losses(ds), period, i, j);
    GainsLossesAt(ds, j);
  }

  /** Entry `i` of the gain and loss windows comes from the change between prices `k + i` and `k + i + 1`. */
  lemma WindowAt(series: seq<real>, period: int, k: int, i: int)
    requires period >= 1 && |series| > period && k == |series| - period - 1 && 0 <= i < period
    ensures Tail(Gains(Deltas(series)), period)[i] == Gain(series[k + i + 1] - series[k + i])
    ensures Tail(Losses(Deltas(series)), period)[i] == Loss(series[k + i + 1] - series[k + i])
  {
    ChangeAt(series, period, k, i);
    ChangeWindowAt(Deltas(series), period, i, k + i);
  }

  lemma ChangeAt(series: seq<real>, period: int, k: int, i: int)
    requires period >= 1 && |series| > period && k == |series| - period - 1 && 0 <= i < period
    ensures |Deltas(series)| == |series| - 1
    ensures Deltas(series)[k + i] == series[k + i + 1] - series[k + i]
  {
    DeltasAt(series, k + i);
  }

  /** Every entry of the gain and loss windows is non-negative. */
  lemma WindowNonNegative(series: seq<real>, period: int)
    requires period >= 1
    ensures forall i :: 0 <= i < |Tail(Gains(Deltas(series)), period)| ==> Tail(Gains(Deltas(series)), period)[i] >= 0.0
    ensures forall i :: 0 <= i < |Tail(Losses(Deltas(series)), period)| ==> Tail(Losses(Deltas(series)), period)[i] >= 0.0
  {
    var ds := Deltas(series);
    var g, l := Tail(Gains(ds), period), Tail(Losses(ds), period);
    forall i | 0 <= i < |g| ensures g[i] >= 0.0 && l[i] >= 0.0 {
      var j := |ds| - |g| + i;
      assert g[i] == Gains(ds)[j] && l[i] == Losses(ds)[j];
      GainsLossesAt(ds, j);
    }
  }

  lemma QuotientNonNegative(a: real, b: real)
    requires a >= 0.0 && b > 0.0
    ensures a / b >= 0.0
    ensures a / b == 0.0 <==> a == 0.0
  {
  }

  /** Mean gain over the last `period` price changes (their sum divided by `period`). */
  function AverageGain(series: seq<real>, period: int): (g: real)
    requires period >= 1
    ensures g >= 0.0
  {
    WindowNonNegative(series, period);
    SumNonNegative(Tail(Gains(Deltas(series)), period));
    QuotientNonNegative(Sum(Tail(Gains(Deltas(series)), period)), period as real);
    Sum(Tail(Gains(Deltas(series)), period)) / (period as real)
  }

  /** Mean loss over the last `period` price changes; zero exactly when none of them is a fall. */
  function AverageLoss(series: seq<real>, period: int): (l: real)
    requires period >= 1
    ensures l >= 0.0
  {
    WindowNonNegative(series, period);
    SumNonNegative(Tail(Losses(Deltas(series)), period));
    QuotientNonNegative(Sum(Tail(Losses(Deltas(series)), period)), period as real);
    Sum(Tail(Losses(Deltas(series)), period)) / (period as real)
  }

  /**
   * The oscillator from the two averages: 100 when there is no average loss,
   * otherwise 100 - 100 / (1 + RS) with RS the ratio of average gain to
   * average loss. It lies in [0, 100] and is 100 only when the average loss is zero.
   */
  function RsiFromAverages(avgGain: real, avgLoss: real): (r: real)
    requires avgGain >= 0.0 && avgLoss >= 0.0
    ensures 0.0 <= r <= 100.0
    ensures r == 100.0 <==> avgLoss == 0.0
  {
    if avgLoss == 0.0 then 100.0
    else
      QuotientNonNegative(avgGain, avgLoss);
      var rs := avgGain / avgLoss;
      HundredOverAtLeastOne(1.0 + rs);
      100.0 - 100.0 / (1.0 + rs)
  }

  /**
   * The RSI of `series` over its last `period` price changes, or the neutral
   * 50 when there are not more than `period` prices.
   */
  function Rsi(series: seq<real>, period: int): real
    requires period >= 1
  {
    if |series| <= period then 50.0
    else RsiFromAverages(AverageGain(series, period), AverageLoss(series, period))
  }

  /** Appending to a `deque(maxlen=maxlen)`: when full, the oldest element is evicted. */
  function DequeAppend(q: seq<real>, x: real, maxlen: nat): (r: seq<real>)
    requires 1 <= maxlen && |q| <= maxlen
    ensures |r| <= maxlen
  {
    if |q| < maxlen then q + [x] else q[1..] + [x]
  }

  /** A bounded deque fed one element at a time holds the last `maxlen` elements fed. */
  lemma TailSnoc(q: seq<real>, x: real, n: nat)
    requires n >= 1
    ensures Tail(q + [x], n) == DequeAppend(Tail(q, n), x, n)
  {
    if |q| >= n {
      assert Tail(q + [x], n) == q[|q| - n + 1..] + [x];
    }
  }

  /** Extending a price prefix by one price appends one change. */
  lemma DeltasStep(series: seq<real>, i: int)
    requires 1 <= i < |series|
    ensures Deltas(series[..i + 1]) == Deltas(series[..i]) + [series[i] - series[i - 1]]
  {
    var prefix := series[..i + 1];
    assert prefix[..|prefix| - 1] == series[..i];
  }

  lemma GainsLossesSnoc(ds: seq<real>, d: real)
    ensures Gains(ds + [d]) == Gains(ds) + [Gain(d)]
    ensures Losses(ds + [d]) == Losses(ds) + [Loss(d)]
  {
    assert (ds + [d])[..|ds|] == ds;
  }

  /** Taking in the change from price `i - 1` to price `i` appends its gain and its loss to the windows. */
  lemma WindowStep(series: seq<real>, i: int, period: int)
    requires 1 <= i < |series| && period >= 1
    ensures var delta := series[i] - series[i - 1];
            && Tail(Gains(Deltas(series[..i + 1])), period) == DequeAppend(Tail(Gains(Deltas(series[..i])), period), Gain(delta), period)
            && Tail(Losses(Deltas(series[..i + 1])), period) == DequeAppend(Tail(Losses(Deltas(series[..i])), period), Loss(delta), period)
  {
    var delta := series[i] - series[i - 1];
    var ds := Deltas(series[..i]);
    DeltasStep(series, i);
    GainsLossesSnoc(ds, delta);
    TailSnoc(Gains(ds), Gain(delta), period);
    TailSnoc(Losses(ds), Loss(delta), period);
  }

  /**
   * The loop of compute_rsi: one pass over consecutive prices, appending each
   * change's gain and loss to two deques bounded by `period`, so that they end
   * holding the gains and losses of the last `period` changes.
   */
  method ChangeWindows(series: seq<real>, period: int) returns (gains: seq<real>, losses: seq<real>)
    requires period >= 1 && |series| >= 1
    ensures gains == Tail(Gains(Deltas(series)), period)
    ensures losses == Tail(Losses(Deltas(series)), period)
  {
    gains, losses := [], [];
    var i := 1;
    while i < |series|
      invariant 1 <= i <= |series|
      invariant gains == Tail(Gains(Deltas(series[..i])), period)
      invariant losses == Tail(Losses(Deltas(series[..i])), period)
    {
      var delta := series[i] - series[i - 1];
      WindowStep(series, i, period);
      if delta >= 0.0 {
        gains := DequeAppend(gains, delta, period);
        losses := DequeAppend(losses, 0.0, period);
      } else {
        gains := DequeAppend(gains, 0.0, period);
        losses := DequeAppend(losses, -delta, period);
      }
      i := i + 1;
    }
    assert series[..i] == series;
  }

  /** compute_rsi: the neutral 50 for a short series, otherwise the RSI of the windows ChangeWindows fills. */
  method ComputeRsi(series: seq<real>, period: int) returns (rsi: real)
    requires period >= 1
    ensures rsi == Rsi(series, period)
    ensures 0.0 <= rsi <= 100.0
  {
    RsiBounds(series, period);
    if |series| <= period {
      return 50.0;
    }
    var gains, losses := ChangeWindows(series, period);
    var avgGain := Sum(gains) / (period as real);
    var avgLoss := Sum(losses) / (period as real);
    if avgLoss == 0.0 {
      return 100.0;
    }
    QuotientNonNegative(avgGain, avgLoss);
    var rs := avgGain / avgLoss;
    rsi := 100.0 - 100.0 / (1.0 + rs);
  }

  lemma HundredOverAtLeastOne(x: real)
    requires x >= 1.0
    ensures 0.0 < 100.0 / x <= 100.0
  {
    var q := 100.0 / x;
    assert q * x == 100.0;
  }

  /** The RSI always lies in [0, 100], and is strictly below 100 once the window holds a loss. */
  lemma RsiBounds(series: seq<real>, period: int)
    requires period >= 1
    ensures 0.0 <= Rsi(series, period) <= 100.0
    ensures |series| > period && AverageLoss(series, period) > 0.0 ==> Rsi(series, period) < 100.0
  {
  }

  /** The average loss is zero exactly when every change in the window is a rise or no change. */
  lemma AverageLossZeroIff(series: seq<real>, period: int)
    requires period >= 1 && |series| > period
    ensures AverageLoss(series, period) == 0.0 <==>
            forall j :: |series| - period - 1 <= j < |series| - 1 ==> series[j] <= series[j + 1]
  {
    var w := Tail(Losses(Deltas(series)), period);
    var k := |series| - period - 1;
    WindowNonNegative(series, period);
    SumNonNegative(w);
    assert |w| == period;
    QuotientNonNegative(Sum(w), period as real);
    if forall j :: k <= j < |series| - 1 ==> series[j] <= series[j + 1] {
      forall i | 0 <= i < |w| ensures w[i] == 0.0 {
        WindowAt(series, period, k, i);
        assert series[k + i] <= series[k + i + 1];
      }
    } else {
      var j :| k <= j < |series| - 1 && series[j] > series[j + 1];
      WindowAt(series, period, k, j - k);
      assert w[j - k] > 0.0;
    }
  }

  /** Too short a series gives the neutral reading 50. */
  lemma RsiShortSeriesIsNeutral(series: seq<real>, period: int)
    requires period >= 1 && |series| <= period
    ensures Rsi(series, period) == 50.0
  {
  }

  /**
   * The RSI is exactly 100 if and only if the series is longer than the period
   * and the last `period + 1` prices never fall (no loss in the window, whatever
   * the gains, including none).
   */
  lemma RsiIsHundredIff(series: seq<real>, period: int)
    requires period >= 1
    ensures Rsi(series, period) == 100.0 <==>
            |series| > period && forall j :: |series| - period - 1 <= j < |series| - 1 ==> series[j] <= series[j + 1]
  {
    RsiBounds(series, period);
    if |series| > period {
      AverageLossZeroIff(series, period);
    }
  }

  /** The changes of a suffix are the corresponding suffix of the changes. */
  lemma {:induction false} DeltasSuffix(s: seq<real>, k: int)
    requires 0 <= k < |s|
    ensures Deltas(s[k..]) == Deltas(s)[k..]
  {
    if |s| - k >= 2 {
      var init := s[..|s| - 1];
      DeltasSuffix(init, k);
      assert s[k..][..|s| - k - 1] == init[k..];
      assert Deltas(s) == Deltas(init) + [s[|s| - 1] - s[|s| - 2]];
      assert (Deltas(init) + [s[|s| - 1] - s[|s| - 2]])[k..] == Deltas(init)[k..] + [s[|s| - 1] - s[|s| - 2]];
    }
  }

  /** The gains and losses of a suffix of changes are the corresponding suffixes. */
  lemma {:induction false} GainsLossesSuffix(ds: seq<real>, k: int)
    requires 0 <= k <= |ds|
    ensures Gains(ds[k..]) == Gains(ds)[k..]
    ensures Losses(ds[k..]) == Losses(ds)[k..]
  {
    if k < |ds| {
      var init := ds[..|ds| - 1];
      GainsLossesSuffix(init, k);
      assert ds[k..][..|ds| - k - 1] == init[k..];
      assert (Gains(init) + [Gain(ds[|ds| - 1])])[k..] == Gains(init)[k..] + [Gain(ds[|ds| - 1])];
      assert (Losses(init) + [Loss(ds[|ds| - 1])])[k..] == Losses(init)[k..] + [Loss(ds[|ds| - 1])];
    }
  }

  /** Dropping a prefix shorter than what the window leaves out does not change the window. */
  lemma TailSuffix(s: seq<real>, k: int, n: nat)
    requires 0 <= k <= |s| - n
    ensures Tail(s[k..], n) == Tail(s, n)
  {
    if |s| - k > n {
      assert s[k..][|s| - k - n..] == s[|s| - n..];
    }
  }

  /** The gain and loss windows of a series are those of its last `period + 1` prices. */
  lemma WindowsOfRecent(series: seq<real>, period: int)
    requires period >= 1 && |series| > period
    ensures var recent := series[|series| - period - 1..];
            && Tail(Gains(Deltas(series)), period) == Tail(Gains(Deltas(recent)), period)
            && Tail(Losses(Deltas(series)), period) == Tail(Losses(Deltas(recent)), period)
  {
    var k := |series| - period - 1;
    var ds := Deltas(series);
    DeltasSuffix(series, k);
    GainsLossesSuffix(ds, k);
    TailSuffix(Gains(ds), k, period);
    TailSuffix(Losses(ds), k, period);
  }

  /** Only the last `period + 1` prices matter: older changes have been evicted from the window. */
  lemma RsiWindow(series: seq<real>, period: int)
    requires period >= 1 && |series| > period
    ensures Rsi(series, period) == Rsi(series[|series| - period - 1..], period)
  {
    WindowsOfRecent(series, period);
  }

  /** Feeding the oscillator only the trailing `2 * period` closes does not change its value. */
  lemma RsiTrailingWindow(series: seq<real>, period: int)
    requires period >= 1
    ensures Rsi(Tail(series, 2 * period), period) == Rsi(series, period)
  {
    var t := Tail(series, 2 * period);
    if |series| > 2 * period {
      RsiWindow(series, period);
      RsiWindow(t, period);
      assert t[|t| - period - 1..] == series[|series| - period - 1..];
    }
  }

  // ---------------------------------------------------------------------------
  // Moving-average crossover strategy
  // ---------------------------------------------------------------------------

  /** Construction failed: the fast period must be below the slow one. */
  datatype ConfigError = FastPeriodNotBelowSlowPeriod

  datatype MovingAverageRsiStrategy = MovingAverageRsiStrategy(
    fastPeriod: int,
    slowPeriod: int,
    rsiPeriod: int,
    rsiOverbought: real,
    rsiOversold: real)
  {
    /**
     * What generating a signal needs: the constructor's check plus positive
     * periods (a zero fast period makes the previous-bar window empty, a zero
     * RSI period divides by zero).
     */
    predicate Usable() {
      1 <= fastPeriod < slowPeriod && rsiPeriod >= 1
    }

    /** Simple moving average over the `period` closes that end just before index `end`. */
    function Sma(closes: seq<real>, period: int, end: int): real
      requires 1 <= period <= end <= |closes|
    {
      Mean(closes[end - period..end])
    }

    /** The fast average was at or below the slow one a bar ago and is strictly above it now. */
    predicate BullishCross(closes: seq<real>)
      requires Usable() && |closes| >= slowPeriod + 1
    {
      var n := |closes|;
      Sma(closes, fastPeriod, n - 1) <= Sma(closes, slowPeriod, n - 1) &&
      Sma(closes, fastPeriod, n) > Sma(closes, slowPeriod, n)
    }

    /** The fast average was at or above the slow one a bar ago and is strictly below it now. */
    predicate BearishCross(closes: seq<real>)
      requires Usable() && |closes| >= slowPeriod + 1
    {
      var n := |closes|;
      Sma(closes, fastPeriod, n - 1) >= Sma(closes, slowPeriod, n - 1) &&
      Sma(closes, fastPeriod, n) < Sma(closes, slowPeriod, n)
    }

    /**
     * generate_signal: HOLD without `slowPeriod + 1` candles; otherwise BUY on a
     * bullish cross below the overbought level, SELL on a bearish cross above
     * the oversold level, HOLD otherwise.
     */
    function GenerateSignal(candles: seq<Candle>): (signal: TradeSignal)
      requires Usable()
      ensures |candles| < slowPeriod + 1 ==> signal == Hold
    {
      if |candles| < slowPeriod + 1 then Hold
      else
        var closes := Closes(candles);
        var rsi := Rsi(Tail(closes, 2 * rsiPeriod), rsiPeriod);
        if BullishCross(closes) && rsi < rsiOverbought then Buy
        else if BearishCross(closes) && rsi > rsiOversold then Sell
        else Hold
    }
  }

  /** The constructor: rejects `fastPeriod >= slowPeriod` and accepts everything else unchanged. */
  function NewStrategy(
    fastPeriod: int := 5,
    slowPeriod: int := 20,
    rsiPeriod: int := 14,
    rsiOverbought: real := 70.0,
    rsiOversold: real := 30.0): (r: Result<MovingAverageRsiStrategy, ConfigError>)
    ensures r.Failure? <==> fastPeriod >= slowPeriod
    ensures r.Success? ==> r.value == MovingAverageRsiStrategy(fastPeriod, slowPeriod, rsiPeriod, rsiOverbought, rsiOversold)
  {
    if fastPeriod >= slowPeriod then Failure(FastPeriodNotBelowSlowPeriod)
    else Success(MovingAverageRsiStrategy(fastPeriod, slowPeriod, rsiPeriod, rsiOverbought, rsiOversold))
  }

  function Closes(candles: seq<Candle>): (closes: seq<real>)
    ensures |closes| == |candles| && forall i :: 0 <= i < |candles| ==> closes[i] == candles[i].close
  {
    seq(|candles|, i requires 0 <= i < |candles| => candles[i].close)
  }

  /** A bar cannot be both a bullish and a bearish cross. */
  lemma CrossesExclusive(st: MovingAverageRsiStrategy, closes: seq<real>)
    requires st.Usable() && |closes| >= st.slowPeriod + 1
    ensures !(st.BullishCross(closes) && st.BearishCross(closes))
  {
  }

  /**
   * The decision rule, with the RSI taken over the whole close history: BUY
   * exactly on a bullish cross below the overbought level, SELL exactly on a
   * bearish cross above the oversold level (no need to exclude BUY first, the
   * crosses being exclusive), HOLD in every other case.
   */
  lemma SignalRule(st: MovingAverageRsiStrategy, candles: seq<Candle>)
    requires st.Usable()
    ensures var closes := Closes(candles);
            var rsi := Rsi(closes, st.rsiPeriod);
            var enough := |candles| >= st.slowPeriod + 1;
            && (st.GenerateSignal(candles) == Buy <==> enough && st.BullishCross(closes) && rsi < st.rsiOverbought)
            && (st.GenerateSignal(candles) == Sell <==> enough && st.BearishCross(closes) && rsi > st.rsiOversold)
  {
    var closes := Closes(candles);
    RsiTrailingWindow(closes, st.rsiPeriod);
    if |candles| >= st.slowPeriod + 1 {
      CrossesExclusive(st, closes);
    }
  }

  // ---------------------------------------------------------------------------
  // Scenarios
  // ---------------------------------------------------------------------------

  /** Bars whose closes are `prices`, timestamped by position. */
  function Bars(prices: seq<real>): (candles: seq<Candle>)
    ensures Closes(candles) == prices
  {
    var candles := seq(|prices|, i requires 0 <= i < |prices| => Candle(i, prices[i]));
    assert Closes(candles) == prices;
    candles
  }

  lemma MeanRepeat(x: real, n: nat)
    requires n >= 1
    ensures Mean(Repeat(x, n)) == x
  {
    SumRepeat(x, n);
  }

  lemma MeanRepeatThen(x: real, y: real, n: nat)
    requires n >= 1
    ensures Mean(Repeat(x, n - 1) + [y]) == ((n - 1) as real * x + y) / (n as real)
  {
    SumSnoc(Repeat(x, n - 1), y);
    SumRepeat(x, n - 1);
  }

  /** The windows of `p` closes ending one bar ago and now, in a flat run of `m` closes at `x` followed by `y`. */
  lemma FlatThenJumpWindows(x: real, y: real, m: nat, p: nat)
    requires 1 <= p <= m
    ensures (Repeat(x, m) + [y])[m - p..m] == Repeat(x, p)
    ensures (Repeat(x, m) + [y])[m + 1 - p..m + 1] == Repeat(x, p - 1) + [y]
  {
    var closes := Repeat(x, m) + [y];
    assert closes[m + 1 - p..m + 1] == closes[m + 1 - p..m] + [y];
  }

  /** The averages over `p` closes, one bar ago and now, of a flat run of `m` closes at `x` followed by `y`. */
  lemma FlatThenJumpAverages(st: MovingAverageRsiStrategy, x: real, y: real, m: nat, p: nat)
    requires 1 <= p <= m
    ensures st.Sma(Repeat(x, m) + [y], p, m) == x
    ensures st.Sma(Repeat(x, m) + [y], p, m + 1) == ((p - 1) as real * x + y) / (p as real)
  {
    FlatThenJumpWindows(x, y, m, p);
    MeanRepeat(x, p);
    MeanRepeatThen(x, y, p);
  }

  /** Twenty closes at 1900 then one at 1950, periods 3/7/5 and an unreachable overbought level: BUY. */
  lemma BuyOnUpwardBreakout()
    ensures var st := NewStrategy(fastPeriod := 3, slowPeriod := 7, rsiPeriod := 5, rsiOverbought := 101.0);
            st.Success? && st.value.GenerateSignal(Bars(Repeat(1900.0, 20) + [1950.0])) == Buy
  {
    var st := MovingAverageRsiStrategy(3, 7, 5, 101.0, 30.0);
    var closes := Repeat(1900.0, 20) + [1950.0];
    FlatThenJumpAverages(st, 1900.0, 1950.0, 20, 3);
    FlatThenJumpAverages(st, 1900.0, 1950.0, 20, 7);
    RsiBounds(Tail(closes, 10), 5);
    assert st.BullishCross(closes);
  }

  /** Twenty closes at 2000 then one at 1950, periods 3/7/5 and an unreachable oversold level: SELL. */
  lemma SellOnDownwardBreakout()
    ensures var st := NewStrategy(fastPeriod := 3, slowPeriod := 7, rsiPeriod := 5, rsiOversold := -1.0);
            st.Success? && st.value.GenerateSignal(Bars(Repeat(2000.0, 20) + [1950.0])) == Sell
  {
    var st := MovingAverageRsiStrategy(3, 7, 5, 70.0, -1.0);
    var closes := Repeat(2000.0, 20) + [1950.0];
    FlatThenJumpAverages(st, 2000.0, 1950.0, 20, 3);
    FlatThenJumpAverages(st, 2000.0, 1950.0, 20, 7);
    RsiBounds(Tail(closes, 10), 5);
    assert st.BearishCross(closes);
    assert !st.BullishCross(closes);
  }
}
