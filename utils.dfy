/** `process_token_data` of utils.py: the token amount of every raw Solana token-account record,
    read at `account.data.parsed.info.tokenAmount.uiAmount`, in record order. */
module Utils {
  import opened Wrappers

  /** What lies under a record's `account` key, reduced to the one value the core reads:
      the number at `data.parsed.info.tokenAmount.uiAmount`, or `None` when a key on that path
      is missing. */
  datatype Account = Account(uiAmount: Option<real>)

  /** A raw record; `account` is `None` when the record has no `account` key. */
  datatype Record = Record(account: Option<Account>)

  /** The `KeyError` raised while reading the amount path of record `index`. */
  datatype Error = MissingAmount(index: nat)

  predicate HasAmount(r: Record)
  {
    r.account.Some? && r.account.value.uiAmount.Some?
  }

  function AmountOf(r: Record): real
    requires HasAmount(r)
  {
    r.account.value.uiAmount.value
  }

  /** `index` is the first record whose amount path is missing. */
  predicate FirstMissingAmount(records: seq<Record>, index: nat)
  {
    index < |records| && !HasAmount(records[index])
    && forall j :: 0 <= j < index ==> HasAmount(records[j])
  }

  /** The amounts of all records, in order; the first record lacking the amount path aborts
      the whole conversion, nothing is skipped. */
  function TokenAmounts(records: seq<Record>): (r: Result<seq<real>, Error>)
    ensures r.Ok? <==> forall i :: 0 <= i < |records| ==> HasAmount(records[i])
    ensures r.Ok? ==> |r.value| == |records|
    ensures r.Ok? ==> forall i :: 0 <= i < |records| ==> r.value[i] == AmountOf(records[i])
    ensures r.Err? ==> FirstMissingAmount(records, r.error.index)
  {
    if records == [] then Ok([])
    else
      var last := records[|records| - 1];
      match TokenAmounts(records[..|records| - 1])
      case Err(e) => Err(e)
      case Ok(amounts) =>
        if HasAmount(last) then Ok(amounts + [AmountOf(last)])
        else Err(MissingAmount(|records| - 1))
  }

  /** `process_token_data`: the loop that appends each record's amount to `processed_data`. */
  method ProcessTokenData(contractData: seq<Record>) returns (r: Result<seq<real>, Error>)
    ensures r == TokenAmounts(contractData)
  {
    var processed: seq<real> := [];
    for i := 0 to |contractData|
      invariant TokenAmounts(contractData[..i]) == Ok(processed)
    {
      var entry := contractData[i];
      assert contractData[..i + 1][..i] == contractData[..i];
      if !HasAmount(entry) {
        return Err(MissingAmount(i));
      }
      processed := processed + [AmountOf(entry)];
    }
    assert contractData[..|contractData|] == contractData;
    return Ok(processed);
  }
}
