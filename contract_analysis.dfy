/** `analyze_contract_data` of main.py: lowest and highest token balance over the records that
    carry an `account`, with entry and exit points offset inward by the alert threshold. */
module ContractAnalysis {
  import opened Wrappers
  import opened Series
  import opened Utils
  import Analysis

  /** The record has an `account` key but the amount path below it is incomplete. */
  predicate AccountWithoutAmount(r: Record)
  {
    r.account.Some? && r.account.value.uiAmount.None?
  }

  /** `index` is the first record that has an `account` but no amount. */
  predicate FirstAccountWithoutAmount(records: seq<Record>, index: nat)
  {
    index < |records| && AccountWithoutAmount(records[index])
    && forall j :: 0 <= j < index ==> !AccountWithoutAmount(records[j])
  }

  /** `x` is the amount of some record. */
  predicate IsAmountIn(records: seq<Record>, x: real)
  {
    exists i :: 0 <= i < |records| && HasAmount(records[i]) && x == AmountOf(records[i])
  }

  /** The list comprehension of `analyze_contract_data` that collects the token amounts: records
      without an `account` key are skipped; one with `account` but an incomplete amount path
      raises `KeyError`. */
  function Balances(records: seq<Record>): (r: Result<seq<real>, Error>)
    ensures r.Ok? <==> forall i :: 0 <= i < |records| ==> !AccountWithoutAmount(records[i])
    ensures r.Err? ==> FirstAccountWithoutAmount(records, r.error.index)
    ensures r.Ok? ==> |r.value| <= |records|
    ensures r.Ok? ==> forall k :: 0 <= k < |r.value| ==> IsAmountIn(records, r.value[k])
  {
    if records == [] then Ok([])
    else
      var init, last := records[..|records| - 1], records[|records| - 1];
      assert forall i :: 0 <= i < |init| ==> init[i] == records[i];
      match Balances(init)
      case Err(e) => Err(e)
      case Ok(bs) =>
        assert forall k :: 0 <= k < |bs| ==> IsAmountIn(records, bs[k]) by {
          forall k | 0 <= k < |bs|
            ensures IsAmountIn(records, bs[k])
          {
            var i :| 0 <= i < |init| && HasAmount(init[i]) && bs[k] == AmountOf(init[i]);
            assert records[i] == init[i];
          }
        }
        if last.account.None? then Ok(bs)
        else if HasAmount(last) then Ok(bs + [AmountOf(last)])
        else Err(MissingAmount(|records| - 1))
  }

  /** No amount is dropped: the amount of every record that has one is among the balances. */
  lemma {:induction false} AmountIsBalance(records: seq<Record>, i: nat)
    requires i < |records| && HasAmount(records[i])
    requires Balances(records).Ok?
    ensures AmountOf(records[i]) in Balances(records).value
  {
    var init := records[..|records| - 1];
    assert Balances(init).Ok?;
    if i < |init| {
      assert init[i] == records[i];
      AmountIsBalance(init, i);
    }
  }

  /** The dict returned by `analyze_contract_data`. */
  datatype ContractReport = ContractReport(entryPoint: real, exitPoint: real, maxBalance: real, minBalance: real)

  /** `lo` and `hi` are the least and the greatest of `balances`. */
  predicate IsRangeOf(lo: real, hi: real, balances: seq<real>)
  {
    && lo <= hi
    && lo in balances
    && hi in balances
    && (forall k :: 0 <= k < |balances| ==> lo <= balances[k] <= hi)
  }

  /** `report` holds the least and the greatest of `balances`, and the entry and exit points
      offset from them by `threshold`. */
  predicate IsReportOf(report: ContractReport, balances: seq<real>, threshold: real)
  {
    && IsRangeOf(report.minBalance, report.maxBalance, balances)
    && report.entryPoint == report.minBalance * (1.0 + threshold)
    && report.exitPoint == report.maxBalance * (1.0 - threshold)
  }

  /** `analyze_contract_data`: `None` for missing or empty data and when no record carries an
      `account`; otherwise `min * (1 + threshold)` and `max * (1 - threshold)`, where
      `threshold` is the configured `ALERT_THRESHOLD`. */
  function AnalyzeContractData(contractData: Option<seq<Record>>, threshold: real)
    : (r: Result<Option<ContractReport>, Error>)
    ensures contractData.None? || contractData.value == [] ==> r == Ok(None)
    ensures contractData.Some? ==> (r.Err? <==> Balances(contractData.value).Err?)
    ensures r.Ok? && contractData.Some? ==>
              (r.value.None? <==> forall i :: 0 <= i < |contractData.value| ==> contractData.value[i].account.None?)
    ensures r.Ok? && r.value.Some? ==>
              && contractData.Some? && Balances(contractData.value).Ok?
              && IsReportOf(r.value.value, Balances(contractData.value).value, threshold)
  {
    if contractData.None? || contractData.value == [] then Ok(None)
    else
      match Balances(contractData.value)
      case Err(e) => Err(e)
      case Ok(balances) =>
        NoBalanceIffNoAccount(contractData.value);
        Ok(ReportOn(balances, threshold))
  }

  /** The tail of `analyze_contract_data` once the balances are collected: `None` when there
      are none, otherwise the report on their least and greatest value. */
  function ReportOn(balances: seq<real>, threshold: real): (r: Option<ContractReport>)
    ensures r.None? <==> balances == []
    ensures r.Some? ==> IsReportOf(r.value, balances, threshold)
  {
    if balances == [] then None
    else
      var maxBalance := Max(balances);
      var minBalance := Min(balances);
      ExtremesAreRange(balances);
      Some(ContractReport(minBalance * (1.0 + threshold), maxBalance * (1.0 - threshold),
                          maxBalance, minBalance))
  }

  /** The extremes of a non-empty balance list are its range. */
  lemma ExtremesAreRange(balances: seq<real>)
    requires balances != []
    ensures IsRangeOf(Min(balances), Max(balances), balances)
  {
  }

  /** With a non-negative threshold the entry point is at or above a non-negative minimum and the
      exit point at or below a non-negative maximum. */
  lemma TargetsInsideRange(report: ContractReport, balances: seq<real>, threshold: real)
    requires IsReportOf(report, balances, threshold)
    requires threshold >= 0.0
    ensures report.minBalance >= 0.0 ==> report.entryPoint >= report.minBalance
    ensures report.maxBalance >= 0.0 ==> report.exitPoint <= report.maxBalance
  {
  }

  /** The comprehension yields no balance exactly when no record carries an `account`. */
  lemma {:induction false} NoBalanceIffNoAccount(records: seq<Record>)
    requires Balances(records).Ok?
    ensures Balances(records).value == [] <==> forall i :: 0 <= i < |records| ==> records[i].account.None?
  {
    if records != [] {
      var init := records[..|records| - 1];
      NoBalanceIffNoAccount(init);
      assert forall i :: 0 <= i < |init| ==> init[i] == records[i];
    }
  }

  /** When every record carries an `account`, the comprehension reads exactly what
      `process_token_data` reads, and fails on the same record. */
  lemma {:induction false} BalancesMatchTokenAmounts(records: seq<Record>)
    requires forall i :: 0 <= i < |records| ==> records[i].account.Some?
    ensures Balances(records) == TokenAmounts(records)
  {
    if records != [] {
      var init := records[..|records| - 1];
      assert forall i :: 0 <= i < |init| ==> init[i] == records[i];
      BalancesMatchTokenAmounts(init);
    }
  }

  /** With a threshold of 5% and records that all carry an `account`, `analyze_contract_data`
      reports the same levels and targets as `analyze_token_data` of analysis.py, from two records
      on and with the same error. */
  lemma AgreesWithTokenAnalysis(records: seq<Record>)
    requires |records| >= 2
    requires forall i :: 0 <= i < |records| ==> records[i].account.Some?
    ensures var token := Analysis.AnalyzeTokenData(records);
            var contract := AnalyzeContractData(Some(records), 0.05);
            && (token.Err? <==> contract.Err?)
            && (token.Ok? ==>
                  && token.value.Some? && contract.value.Some?
                  && token.value.value.support == contract.value.value.minBalance
                  && token.value.value.resistance == contract.value.value.maxBalance
                  && token.value.value.entryPoint == contract.value.value.entryPoint
                  && token.value.value.exitPoint == contract.value.value.exitPoint)
  {
    BalancesMatchTokenAmounts(records);
  }
}
