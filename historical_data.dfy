/** `analyze_historical_data` of historical_data.py once the price table has been fetched: the
    latest 14-price moving average and whether the latest price lies above or below it. */
module HistoricalData {
  import opened Wrappers
  import opened Series
  import opened Strategy

  /** The dict returned for a non-empty table. */
  datatype HistoricalAnalysis = HistoricalAnalysis(sma: real, entrySignal: bool, exitSignal: bool)

  /** `analyze_historical_data` on the fetched `price` column: an empty table gives the empty
      result (`None` here); otherwise the last 14-price average and the two comparisons. Tables
      of 1 to 13 rows would take numpy's swapped-operand path and are excluded. */
  function AnalyzeHistoricalData(prices: seq<real>): (r: Option<HistoricalAnalysis>)
    requires |prices| == 0 || |prices| >= SmaWindow
    ensures r.None? <==> prices == []
    ensures r.Some? ==> r.value.sma == Mean(prices[|prices| - SmaWindow..])
    ensures r.Some? ==> (r.value.entrySignal <==> Last(prices) > r.value.sma)
    ensures r.Some? ==> (r.value.exitSignal <==> Last(prices) < r.value.sma)
  {
    if prices == [] then None
    else
      var sma := MovingAverage(prices, SmaWindow);
      assert prices[|sma| - 1..|sma| - 1 + SmaWindow] == prices[|prices| - SmaWindow..];
      Some(HistoricalAnalysis(Last(sma), Last(prices) > Last(sma), Last(prices) < Last(sma)))
  }

  /** Entry and exit never fire together, and both stay off exactly when the latest price sits
      on the average. */
  lemma SignalsExclusive(prices: seq<real>)
    requires |prices| >= SmaWindow
    ensures var a := AnalyzeHistoricalData(prices).value;
            && !(a.entrySignal && a.exitSignal)
            && (!a.entrySignal && !a.exitSignal <==> Last(prices) == a.sma)
  {
  }

  /** The historical entry signal is the `sma_entry` of the signal generator. */
  lemma EntryMatchesSmaEntry(prices: seq<real>)
    requires |prices| >= SmaWindow
    ensures AnalyzeHistoricalData(prices).value.entrySignal == SmaEntry(prices)
    ensures MacdDefined(|prices|, MacdFast, MacdSlow, MacdSignal) ==>
              AnalyzeHistoricalData(prices).value.entrySignal == StrategyAnalysis(prices).smaEntry
  {
  }

  /** On a strictly increasing series the historical analysis signals entry, not exit; on a
      constant one it signals neither. */
  lemma TrendSignals(prices: seq<real>, v: real)
    requires |prices| >= SmaWindow
    ensures StrictlyIncreasing(prices) ==>
              AnalyzeHistoricalData(prices).value.entrySignal && !AnalyzeHistoricalData(prices).value.exitSignal
    ensures Constant(prices, v) ==>
              !AnalyzeHistoricalData(prices).value.entrySignal && !AnalyzeHistoricalData(prices).value.exitSignal
  {
    EntryMatchesSmaEntry(prices);
    if StrictlyIncreasing(prices) {
      StrictlyIncreasingSmaEntry(prices);
    }
    if Constant(prices, v) {
      MeanConstant(prices[|prices| - SmaWindow..], v);
    }
  }
}
