/** analysis.py: support and resistance as the extremes of the series, and fixed 5% targets
    inside them. */
module Analysis {
  import opened Wrappers
  import opened Series
  import opened Utils

  const EntryFactor: real := 1.05
  const ExitFactor: real := 0.95

  datatype SupportResistance = SupportResistance(support: real, resistance: real)

  /** `find_support_resistance`: `np.min` and `np.max`, which raise on an empty series. */
  function FindSupportResistance(prices: seq<real>): (sr: SupportResistance)
    requires |prices| >= 1
    ensures sr.support in prices && sr.resistance in prices
    ensures forall i :: 0 <= i < |prices| ==> sr.support <= prices[i] <= sr.resistance
  {
    SupportResistance(Min(prices), Max(prices))
  }

  /** Any non-empty series has its support at or below its resistance. */
  lemma SupportBelowResistance(prices: seq<real>)
    requires |prices| >= 1
    ensures FindSupportResistance(prices).support <= FindSupportResistance(prices).resistance
  {
  }

  /** The dict returned by `analyze_token_data`. */
  datatype TokenAnalysis = TokenAnalysis(entryPoint: real, exitPoint: real, support: real, resistance: real)

  /** `analyze_token_data`: converts the records (a missing amount path raises, propagated as
      `Err`), returns `None` for fewer than two prices, and otherwise puts the entry 5% above the
      support and the exit 5% below the resistance. */
  function AnalyzeTokenData(contractData: seq<Record>): (r: Result<Option<TokenAnalysis>, Error>)
    ensures r.Err? <==> TokenAmounts(contractData).Err?
    ensures r.Err? ==> FirstMissingAmount(contractData, r.error.index)
    ensures r.Ok? ==> (r.value.None? <==> |contractData| < 2)
    ensures r.Ok? && r.value.Some? ==>
              var a := r.value.value;
              && (exists i :: 0 <= i < |contractData| && a.support == AmountOf(contractData[i]))
              && (exists i :: 0 <= i < |contractData| && a.resistance == AmountOf(contractData[i]))
              && (forall i :: 0 <= i < |contractData| ==>
                    a.support <= AmountOf(contractData[i]) <= a.resistance)
              && a.entryPoint == a.support * EntryFactor
              && a.exitPoint == a.resistance * ExitFactor
    ensures r.Ok? && r.value.Some? && r.value.value.support >= 0.0 ==>
              r.value.value.support <= r.value.value.entryPoint
    ensures r.Ok? && r.value.Some? && r.value.value.resistance >= 0.0 ==>
              r.value.value.exitPoint <= r.value.value.resistance
  {
    match TokenAmounts(contractData)
    case Err(e) => Err(e)
    case Ok(prices) =>
      if |prices| < 2 then Ok(None)
      else
        var sr := FindSupportResistance(prices);
        assert sr.support <= prices[0] <= sr.resistance;
        Ok(Some(TokenAnalysis(sr.support * EntryFactor, sr.resistance * ExitFactor,
                              sr.support, sr.resistance)))
  }

  /** A record holding `amount` at the full path. */
  function AmountRecord(amount: real): Record
  {
    Record(Some(Account(Some(amount))))
  }

  /** The prices 5, 3, 9, 1 give support 1, resistance 9, entry 1.05 and exit 8.55. */
  lemma AnalyzeTokenDataExample()
    ensures AnalyzeTokenData([AmountRecord(5.0), AmountRecord(3.0), AmountRecord(9.0), AmountRecord(1.0)])
            == Ok(Some(TokenAnalysis(1.05, 8.55, 1.0, 9.0)))
  {
    var records := [AmountRecord(5.0), AmountRecord(3.0), AmountRecord(9.0), AmountRecord(1.0)];
    var prices := TokenAmounts(records).value;
    assert prices == [5.0, 3.0, 9.0, 1.0];
    var sr := FindSupportResistance(prices);
    assert sr.support <= 1.0 && sr.resistance >= 9.0;
    assert sr == SupportResistance(1.0, 9.0);
  }
}
