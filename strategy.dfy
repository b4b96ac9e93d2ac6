/** The indicator library and the signal generator of strategy.py: simple moving average,
    whole-series RSI, a MACD built from simple moving averages, and the three entry signals. */
module Strategy {
  import opened Series

  const SmaWindow: nat := 14
  const RsiWindow: nat := 14
  const RsiOversold: real := 30.0
  const MacdFast: nat := 12
  const MacdSlow: nat := 26
  const MacdSignal: nat := 9

  // ---------------------------------------------------------------- moving average

  /** `np.convolve(prices, np.ones(window), 'valid') / window`: the mean of every run of `window`
      consecutive prices, oldest first. numpy swaps the operands when `window` exceeds the
      series; that case, and `window == 0`, are excluded by the precondition. */
  function MovingAverage(prices: seq<real>, window: nat): (r: seq<real>)
    requires 1 <= window <= |prices|
    ensures |r| == |prices| - window + 1
    ensures forall k :: 0 <= k < |r| ==> r[k] == Mean(prices[k..k + window])
    decreases |prices|
  {
    if |prices| == window then
      assert prices[0..window] == prices;
      [Mean(prices)]
    else
      var rest := MovingAverage(prices[1..], window);
      assert forall k :: 0 <= k < |rest| ==> rest[k] == Mean(prices[k + 1..k + 1 + window]) by {
        forall k | 0 <= k < |rest|
          ensures rest[k] == Mean(prices[k + 1..k + 1 + window])
        {
          assert prices[1..][k..k + window] == prices[k + 1..k + 1 + window];
        }
      }
      [Mean(prices[..window])] + rest
  }

  /** A constant series averages to itself at every position. */
  lemma MovingAverageConstant(prices: seq<real>, window: nat, v: real)
    requires 1 <= window <= |prices|
    requires Constant(prices, v)
    ensures Constant(MovingAverage(prices, window), v)
  {
    var r := MovingAverage(prices, window);
    forall k | 0 <= k < |r|
      ensures r[k] == v
    {
      MeanConstant(prices[k..k + window], v);
    }
  }

  // ---------------------------------------------------------------- RSI

  /** `np.diff`: the first differences of the series. */
  function Diff(prices: seq<real>): (d: seq<real>)
    ensures |prices| >= 1 ==> |d| == |prices| - 1
  {
    if |prices| < 2 then []
    else seq(|prices| - 1, i requires 0 <= i < |prices| - 1 => prices[i + 1] - prices[i])
  }

  /** `delta.where(delta > 0, 0)`: rises kept, everything else replaced by 0. */
  function Gains(delta: seq<real>): seq<real>
  {
    seq(|delta|, i requires 0 <= i < |delta| => if delta[i] > 0.0 then delta[i] else 0.0)
  }

  /** `-delta.where(delta < 0, 0)`: falls as positive amounts, everything else 0. */
  function Losses(delta: seq<real>): seq<real>
  {
    seq(|delta|, i requires 0 <= i < |delta| => -(if delta[i] < 0.0 then delta[i] else 0.0))
  }

  /** Mean gain over ALL `|prices| - 1` differences, not over a trailing window. */
  function AverageGain(prices: seq<real>): real
    requires |prices| >= 2
  {
    Mean(Gains(Diff(prices)))
  }

  /** Mean loss over ALL `|prices| - 1` differences, not over a trailing window. */
  function AverageLoss(prices: seq<real>): real
    requires |prices| >= 2
  {
    Mean(Losses(Diff(prices)))
  }

  lemma GainLossNonNegative(prices: seq<real>)
    requires |prices| >= 2
    ensures AverageGain(prices) >= 0.0 && AverageLoss(prices) >= 0.0
  {
    var d := Diff(prices);
    MeanBounds(Gains(d), 0.0, Max(Gains(d)));
    MeanBounds(Losses(d), 0.0, Max(Losses(d)));
  }

  /** `relative_strength_index`: `rs = gain / loss` (0 when loss is 0) and `100 - 100 / (1 + rs)`.
      `window` is accepted and ignored. With no losses the result is 0, not 100. Fewer than two
      prices would make numpy's mean NaN and are excluded. */
  function RelativeStrengthIndex(prices: seq<real>, window: nat): (rsi: real)
    requires |prices| >= 2
    ensures 0.0 <= rsi < 100.0
    ensures rsi == 0.0 <==> AverageGain(prices) == 0.0 || AverageLoss(prices) == 0.0
  {
    var gain := AverageGain(prices);
    var loss := AverageLoss(prices);
    GainLossNonNegative(prices);
    var rs := if loss != 0.0 then gain / loss else 0.0;
    assert rs >= 0.0;
    assert 0.0 < 100.0 / (1.0 + rs) <= 100.0;
    assert 100.0 / (1.0 + rs) == 100.0 <==> rs == 0.0;
    100.0 - 100.0 / (1.0 + rs)
  }

  /** The `window` argument has no influence on the RSI. */
  lemma RsiIgnoresWindow(prices: seq<real>, w1: nat, w2: nat)
    requires |prices| >= 2
    ensures RelativeStrengthIndex(prices, w1) == RelativeStrengthIndex(prices, w2)
  {
  }

  /** Whenever some price falls, the RSI is the gain's share of gain plus loss, in percent. */
  lemma RsiAsGainShare(prices: seq<real>, window: nat)
    requires |prices| >= 2
    requires AverageLoss(prices) > 0.0
    ensures AverageGain(prices) + AverageLoss(prices) > 0.0
    ensures RelativeStrengthIndex(prices, window)
            == 100.0 * AverageGain(prices) / (AverageGain(prices) + AverageLoss(prices))
  {
    GainLossNonNegative(prices);
    var gain, loss := AverageGain(prices), AverageLoss(prices);
    var rs := gain / loss;
    assert rs * loss == gain;
    assert (1.0 + rs) * loss == loss + gain;
    var q := 100.0 / (1.0 + rs);
    assert q * (1.0 + rs) == 100.0;
    assert q * (gain + loss) == 100.0 * loss;
    assert (100.0 - q) * (gain + loss) == 100.0 * gain;
  }

  /** Gains minus losses is the plain difference at every step. */
  lemma {:induction false} SumGainsMinusLosses(delta: seq<real>)
    ensures Sum(Gains(delta)) - Sum(Losses(delta)) == Sum(delta)
  {
    if delta != [] {
      assert Gains(delta)[1..] == Gains(delta[1..]);
      assert Losses(delta)[1..] == Losses(delta[1..]);
      SumGainsMinusLosses(delta[1..]);
    }
  }

  /** The differences telescope: they add up to the last price minus the first. */
  lemma {:induction false} SumDiffTelescopes(prices: seq<real>)
    requires |prices| >= 1
    ensures Sum(Diff(prices)) == Last(prices) - prices[0]
  {
    if |prices| >= 2 {
      assert Diff(prices)[1..] == Diff(prices[1..]);
      SumDiffTelescopes(prices[1..]);
    }
  }

  /** Average gain minus average loss is the average change over the WHOLE series: the
      indicator looks at every difference, whatever window is asked for. */
  lemma GainMinusLossIsAverageChange(prices: seq<real>)
    requires |prices| >= 2
    ensures AverageGain(prices) - AverageLoss(prices)
            == (Last(prices) - prices[0]) / ((|prices| - 1) as real)
  {
    var d := Diff(prices);
    SumGainsMinusLosses(d);
    SumDiffTelescopes(prices);
    var n := |d| as real;
    assert AverageGain(prices) - AverageLoss(prices) == (Sum(Gains(d)) - Sum(Losses(d))) / n;
  }

  /** A series that never falls has no losses, so its RSI is exactly 0. */
  lemma NonDecreasingRsiIsZero(prices: seq<real>, window: nat)
    requires |prices| >= 2
    requires NonDecreasing(prices)
    ensures AverageLoss(prices) == 0.0
    ensures RelativeStrengthIndex(prices, window) == 0.0
  {
    var l := Losses(Diff(prices));
    assert Constant(l, 0.0);
    MeanConstant(l, 0.0);
  }

  // ---------------------------------------------------------------- MACD

  /** numpy broadcasting for `a - b`: equal lengths, or one side of length 1. */
  predicate Broadcastable(a: nat, b: nat)
  {
    a == b || a == 1 || b == 1
  }

  /** Element-wise `a - b` under numpy broadcasting: a length-1 operand is repeated. */
  function Subtract(a: seq<real>, b: seq<real>): (r: seq<real>)
    requires |a| >= 1 && |b| >= 1 && Broadcastable(|a|, |b|)
    ensures |r| == (if |a| >= |b| then |a| else |b|)
    ensures forall k :: 0 <= k < |r| ==>
              r[k] == a[if |a| == 1 then 0 else k] - b[if |b| == 1 then 0 else k]
  {
    if |a| == |b| then seq(|a|, k requires 0 <= k < |a| => a[k] - b[k])
    else if |a| == 1 then seq(|b|, k requires 0 <= k < |b| => a[0] - b[k])
    else seq(|a|, k requires 0 <= k < |a| => a[k] - b[0])
  }

  /** The two lines returned by `macd`. */
  datatype MacdLines = MacdLines(macd: seq<real>, signal: seq<real>)

  /** The inputs for which `macd` runs: each moving average has a window within the series,
      the fast and slow averages broadcast, and the signal window fits the MACD line. */
  predicate MacdDefined(n: nat, fast: nat, slow: nat, signal: nat)
  {
    1 <= fast <= n && 1 <= slow <= n && 1 <= signal
    && Broadcastable(n - fast + 1, n - slow + 1)
    && signal <= (if fast <= slow then n - fast + 1 else n - slow + 1)
  }

  /** `macd`: fast SMA minus slow SMA (simple, not exponential, averages), and the SMA of that
      line as the signal line. */
  function Macd(prices: seq<real>, fast: nat, slow: nat, signal: nat): (r: MacdLines)
    requires MacdDefined(|prices|, fast, slow, signal)
    ensures |r.macd| == |prices| - (if fast <= slow then fast else slow) + 1
    ensures forall k :: 0 <= k < |r.macd| ==>
              var kf, ks := if fast == |prices| then 0 else k, if slow == |prices| then 0 else k;
              r.macd[k] == Mean(prices[kf..kf + fast]) - Mean(prices[ks..ks + slow])
    ensures |r.signal| == |r.macd| - signal + 1
    ensures forall k :: 0 <= k < |r.signal| ==> r.signal[k] == Mean(r.macd[k..k + signal])
  {
    var line := Subtract(MovingAverage(prices, fast), MovingAverage(prices, slow));
    MacdLines(line, MovingAverage(line, signal))
  }

  /** With the default periods 12/26/9 and both windows within the series, the model's `macd`
      runs only on series of exactly 26 prices: a longer one gives averages of different lengths
      that do not broadcast. */
  lemma MacdDefaultDomain(n: nat)
    ensures MacdDefined(n, MacdFast, MacdSlow, MacdSignal) <==> n == MacdSlow
  {
  }

  /** On 26 prices the slow average is the single mean of the whole series, so the MACD line is
      each 12-price mean minus that overall mean: 15 values, and 7 signal values. */
  lemma MacdOnDefaultDomain(prices: seq<real>)
    requires |prices| == MacdSlow
    ensures |Macd(prices, MacdFast, MacdSlow, MacdSignal).macd| == 15
    ensures |Macd(prices, MacdFast, MacdSlow, MacdSignal).signal| == 7
    ensures forall k :: 0 <= k < 15 ==>
              Macd(prices, MacdFast, MacdSlow, MacdSignal).macd[k]
              == Mean(prices[k..k + MacdFast]) - Mean(prices)
  {
  }

  // ---------------------------------------------------------------- signals

  /** `prices[-1] > moving_average(prices, 14)[-1]`. */
  function SmaEntry(prices: seq<real>): bool
    requires |prices| >= SmaWindow
  {
    Last(prices) > Last(MovingAverage(prices, SmaWindow))
  }

  /** `relative_strength_index(prices, 14) < 30`. */
  function RsiEntry(prices: seq<real>): bool
    requires |prices| >= 2
  {
    RelativeStrengthIndex(prices, RsiWindow) < RsiOversold
  }

  /** Last MACD value above the last signal value. */
  function MacdEntry(prices: seq<real>): bool
    requires MacdDefined(|prices|, MacdFast, MacdSlow, MacdSignal)
  {
    var m := Macd(prices, MacdFast, MacdSlow, MacdSignal);
    Last(m.macd) > Last(m.signal)
  }

  /** The `signals` dict of `strategy_analysis`. */
  datatype SignalSet = SignalSet(smaEntry: bool, rsiEntry: bool, macdEntry: bool)

  /** `strategy_analysis`: the three signals for the latest point of the series. Its domain is
      that of the model's `macd` with the default periods (series of exactly 26 prices). */
  function StrategyAnalysis(prices: seq<real>): (r: SignalSet)
    requires MacdDefined(|prices|, MacdFast, MacdSlow, MacdSignal)
    ensures r.smaEntry <==> Last(prices) > Mean(prices[|prices| - SmaWindow..])
    ensures r.rsiEntry <==> RelativeStrengthIndex(prices, RsiWindow) < RsiOversold
    ensures NonDecreasing(prices) ==> r.rsiEntry
  {
    SmaEntryMeaning(prices);
    NonDecreasingRsiEntry(prices);
    SignalSet(SmaEntry(prices), RsiEntry(prices), MacdEntry(prices))
  }

  /** `macd_entry` compares the last MACD value with the mean of the last 9 MACD values. */
  lemma MacdEntryMeaning(prices: seq<real>)
    requires MacdDefined(|prices|, MacdFast, MacdSlow, MacdSignal)
    ensures var line := Macd(prices, MacdFast, MacdSlow, MacdSignal).macd;
            |line| >= MacdSignal && (MacdEntry(prices) <==> Last(line) > Mean(line[|line| - MacdSignal..]))
  {
    var m := Macd(prices, MacdFast, MacdSlow, MacdSignal);
    MacdOnDefaultDomain(prices);
    var start := |m.macd| - MacdSignal;
    assert m.macd[start..start + MacdSignal] == m.macd[start..];
  }

  /** `sma_entry` holds exactly when the last price exceeds the mean of the last 14 prices. */
  lemma SmaEntryMeaning(prices: seq<real>)
    requires |prices| >= SmaWindow
    ensures SmaEntry(prices) <==> Last(prices) > Mean(prices[|prices| - SmaWindow..])
  {
    var r := MovingAverage(prices, SmaWindow);
    assert prices[|r| - 1..|r| - 1 + SmaWindow] == prices[|prices| - SmaWindow..];
  }

  /** On a strictly increasing series the last price is above the mean of the last 14. */
  lemma StrictlyIncreasingSmaEntry(prices: seq<real>)
    requires |prices| >= SmaWindow
    requires StrictlyIncreasing(prices)
    ensures SmaEntry(prices)
  {
    var w := prices[|prices| - SmaWindow..];
    assert w[0] < Last(prices);
    MeanStrictlyBelow(w, Last(prices), 0);
    SmaEntryMeaning(prices);
  }

  /** On a constant series the last price equals the mean, so there is no `sma_entry`. */
  lemma ConstantNoSmaEntry(prices: seq<real>, v: real)
    requires |prices| >= SmaWindow
    requires Constant(prices, v)
    ensures !SmaEntry(prices)
  {
    MovingAverageConstant(prices, SmaWindow, v);
  }

  /** A series that never falls (a constant one in particular) always raises `rsi_entry`:
      its RSI is 0. */
  lemma NonDecreasingRsiEntry(prices: seq<real>)
    requires |prices| >= 2
    ensures NonDecreasing(prices) ==> RsiEntry(prices)
  {
    if NonDecreasing(prices) {
      NonDecreasingRsiIsZero(prices, RsiWindow);
    }
  }

  /** On a constant series the MACD line and its signal line are all 0: no `macd_entry`. */
  lemma ConstantNoMacdEntry(prices: seq<real>, v: real)
    requires MacdDefined(|prices|, MacdFast, MacdSlow, MacdSignal)
    requires Constant(prices, v)
    ensures !MacdEntry(prices)
  {
    var fastAvg := MovingAverage(prices, MacdFast);
    var slowAvg := MovingAverage(prices, MacdSlow);
    MovingAverageConstant(prices, MacdFast, v);
    MovingAverageConstant(prices, MacdSlow, v);
    var m := Macd(prices, MacdFast, MacdSlow, MacdSignal);
    assert Constant(m.macd, 0.0);
    MovingAverageConstant(m.macd, MacdSignal, 0.0);
  }
}
