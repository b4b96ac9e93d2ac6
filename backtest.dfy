/** `backtest_strategy` of backtest.py: replays the signal generator over growing prefixes of a
    price history, buying or selling one unit per step while the balance is positive.

    The signal function is a parameter: the model's `strategy_analysis` is defined only on
    prefixes of 26 prices. The source breaks off inside the sell record, before any balance update, so
    the balance after a sell is given by the parameter `settle`. */
module Backtest {
  import opened Series
  import opened Strategy

  const InitialBalance: real := 1000.0
  /** The first step; also the length of the first prefix handed to the signals. */
  const FirstStep: nat := 14

  /** One entry of `results`: a buy records its `entry` price, a sell its `exit` price, and
      both the balance before the step. */
  datatype Event = Buy(entry: real, balance: real) | Sell(exit: real, balance: real)

  /** The loop state: `initial_balance` and `results`. */
  datatype Ledger = Ledger(balance: real, results: seq<Event>)

  /** An event is recorded at step `i` when the balance is positive and a signal fires. */
  predicate Fires(signals: SignalSet, balance: real)
  {
    balance > 0.0 && (signals.smaEntry || signals.macdEntry)
  }

  /** The event of a firing step: `sma_entry` takes priority over `macd_entry`. */
  function EventAt(prices: seq<real>, i: nat, signal: seq<real> -> SignalSet, balance: real): Event
    requires i < |prices|
  {
    if signal(prices[..i]).smaEntry then Buy(prices[i], balance) else Sell(prices[i], balance)
  }

  /** One loop iteration, on the signals of `prices[..i]`, which leaves out `prices[i]`. */
  function Step(prices: seq<real>, i: nat, signal: seq<real> -> SignalSet,
                settle: (real, real) -> real, st: Ledger): (next: Ledger)
    requires i < |prices|
    ensures |st.results| <= |next.results| <= |st.results| + 1
    ensures next.results[..|st.results|] == st.results
    ensures |next.results| == |st.results| + 1 <==> Fires(signal(prices[..i]), st.balance)
  {
    var signals := signal(prices[..i]);
    if signals.smaEntry && st.balance > 0.0 then
      Ledger(st.balance - prices[i], st.results + [Buy(prices[i], st.balance)])
    else if signals.macdEntry && st.balance > 0.0 then
      Ledger(settle(st.balance, prices[i]), st.results + [Sell(prices[i], st.balance)])
    else
      st
  }

  /** The state after steps `FirstStep .. upto - 1`. */
  function Replay(prices: seq<real>, signal: seq<real> -> SignalSet,
                  settle: (real, real) -> real, upto: nat): Ledger
    requires upto <= |prices|
  {
    if upto <= FirstStep then Ledger(InitialBalance, [])
    else Step(prices, upto - 1, signal, settle, Replay(prices, signal, settle, upto - 1))
  }

  /** The steps at which `Replay` recorded an event, in order. */
  function EventSteps(prices: seq<real>, signal: seq<real> -> SignalSet,
                      settle: (real, real) -> real, upto: nat): seq<nat>
    requires upto <= |prices|
  {
    if upto <= FirstStep then []
    else
      var steps := EventSteps(prices, signal, settle, upto - 1);
      if Fires(signal(prices[..upto - 1]), Replay(prices, signal, settle, upto - 1).balance)
      then steps + [upto - 1]
      else steps
  }

  /** `backtest_strategy`: the loop over `range(14, len(prices))`. */
  method BacktestStrategy(prices: seq<real>, signal: seq<real> -> SignalSet, settle: (real, real) -> real)
    returns (balance: real, results: seq<Event>)
    ensures Ledger(balance, results) == Replay(prices, signal, settle, |prices|)
  {
    results := [];
    balance := InitialBalance;
    var i := FirstStep;
    while i < |prices|
      invariant FirstStep <= i
      invariant i <= |prices| || i == FirstStep
      invariant Ledger(balance, results) == Replay(prices, signal, settle, if i <= |prices| then i else |prices|)
    {
      var signals := signal(prices[..i]);
      if signals.smaEntry && balance > 0.0 {
        var entryPrice := prices[i];
        results := results + [Buy(entryPrice, balance)];
        balance := balance - entryPrice;
      } else if signals.macdEntry && balance > 0.0 {
        var exitPrice := prices[i];
        results := results + [Sell(exitPrice, balance)];
        balance := settle(balance, exitPrice);
      }
      i := i + 1;
    }
  }

  // ---------------------------------------------------------------- properties of the replay

  /** `steps` strictly increase and lie in `FirstStep .. upto - 1`. */
  predicate StepsWithin(steps: seq<nat>, upto: nat)
  {
    && (forall k :: 0 <= k < |steps| ==> FirstStep <= steps[k] < upto)
    && (forall k, m :: 0 <= k < m < |steps| ==> steps[k] < steps[m])
  }

  /** The recorded steps are in step order, within the steps run. */
  lemma {:induction false} EventStepsOrdered(prices: seq<real>, signal: seq<real> -> SignalSet,
                                             settle: (real, real) -> real, upto: nat)
    requires upto <= |prices|
    ensures StepsWithin(EventSteps(prices, signal, settle, upto), upto)
  {
    if upto > FirstStep {
      EventStepsOrdered(prices, signal, settle, upto - 1);
      var prev := EventSteps(prices, signal, settle, upto - 1);
      var steps := EventSteps(prices, signal, settle, upto);
      if Fires(signal(prices[..upto - 1]), Replay(prices, signal, settle, upto - 1).balance) {
        assert steps == prev + [upto - 1];
        assert forall k :: 0 <= k < |prev| ==> steps[k] == prev[k];
      } else {
        assert steps == prev;
        assert forall k :: 0 <= k < |prev| ==> FirstStep <= prev[k] < upto - 1;
      }
    }
  }

  /** One event per recorded step. */
  lemma {:induction false} ReplayLogLength(prices: seq<real>, signal: seq<real> -> SignalSet,
                                           settle: (real, real) -> real, upto: nat)
    requires upto <= |prices|
    ensures |Replay(prices, signal, settle, upto).results| == |EventSteps(prices, signal, settle, upto)|
  {
    if upto > FirstStep {
      ReplayLogLength(prices, signal, settle, upto - 1);
    }
  }

  /** The k-th event was recorded at the k-th recorded step: it holds that step's price and the
      positive balance before the step, and it is a buy exactly when `sma_entry` fired there. */
  lemma {:induction false} ReplayEvent(prices: seq<real>, signal: seq<real> -> SignalSet,
                                       settle: (real, real) -> real, upto: nat, k: nat)
    requires upto <= |prices|
    requires k < |EventSteps(prices, signal, settle, upto)|
    ensures var step := EventSteps(prices, signal, settle, upto)[k];
            && step < upto
            && k < |Replay(prices, signal, settle, upto).results|
            && Replay(prices, signal, settle, step).balance > 0.0
            && Replay(prices, signal, settle, upto).results[k]
               == EventAt(prices, step, signal, Replay(prices, signal, settle, step).balance)
  {
    ReplayLogLength(prices, signal, settle, upto);
    ReplayLogLength(prices, signal, settle, upto - 1);
    var prev := EventSteps(prices, signal, settle, upto - 1);
    if k < |prev| {
      ReplayEvent(prices, signal, settle, upto - 1, k);
    }
  }

  /** No firing step is missed: a step at which the balance was positive and a signal fired is
      among the recorded steps of every later replay. */
  lemma {:induction false} EventStepsComplete(prices: seq<real>, signal: seq<real> -> SignalSet,
                                              settle: (real, real) -> real, upto: nat, i: nat)
    requires FirstStep <= i < upto <= |prices|
    requires Fires(signal(prices[..i]), Replay(prices, signal, settle, i).balance)
    ensures i in EventSteps(prices, signal, settle, upto)
  {
    var prev := EventSteps(prices, signal, settle, upto - 1);
    var steps := EventSteps(prices, signal, settle, upto);
    assert steps == prev || steps == prev + [upto - 1];
    if i < upto - 1 {
      EventStepsComplete(prices, signal, settle, upto - 1, i);
      assert i in prev;
    }
  }

  /** The log only grows: every earlier log is a prefix of every later one. */
  lemma {:induction false} ReplayAppendOnly(prices: seq<real>, signal: seq<real> -> SignalSet,
                                            settle: (real, real) -> real, j: nat, m: nat)
    requires j <= m <= |prices|
    ensures var early, late := Replay(prices, signal, settle, j).results, Replay(prices, signal, settle, m).results;
            |early| <= |late| && late[..|early|] == early
  {
    if j < m {
      ReplayAppendOnly(prices, signal, settle, j, m - 1);
      var early := Replay(prices, signal, settle, j).results;
      var mid := Replay(prices, signal, settle, m - 1).results;
      var late := Replay(prices, signal, settle, m).results;
      if m - 1 >= FirstStep {
        assert late[..|mid|] == mid;
        assert late[..|early|] == mid[..|early|];
      }
    }
  }

  /** At most one event per step: no more events than steps run. */
  lemma {:induction false} ReplayLength(prices: seq<real>, signal: seq<real> -> SignalSet,
                                        settle: (real, real) -> real, upto: nat)
    requires upto <= |prices|
    ensures |Replay(prices, signal, settle, upto).results| <= if upto <= FirstStep then 0 else upto - FirstStep
  {
    if upto > FirstStep {
      ReplayLength(prices, signal, settle, upto - 1);
    }
  }

  /** Once the balance is not positive nothing happens any more: the state is frozen. */
  lemma {:induction false} BalanceGuard(prices: seq<real>, signal: seq<real> -> SignalSet,
                                        settle: (real, real) -> real, j: nat, m: nat)
    requires j <= m <= |prices|
    requires Replay(prices, signal, settle, j).balance <= 0.0
    ensures Replay(prices, signal, settle, m) == Replay(prices, signal, settle, j)
  {
    if j < m {
      BalanceGuard(prices, signal, settle, j, m - 1);
    }
  }

  /** A buy step records the step's price and the balance before it, and lowers the balance by
      exactly that price; a sell step records the same two values and hands the balance to
      `settle`. */
  lemma StepEffect(prices: seq<real>, signal: seq<real> -> SignalSet,
                   settle: (real, real) -> real, i: nat)
    requires FirstStep <= i < |prices|
    ensures var before, after := Replay(prices, signal, settle, i), Replay(prices, signal, settle, i + 1);
            var signals := signal(prices[..i]);
            && (signals.smaEntry && before.balance > 0.0 ==>
                  after == Ledger(before.balance - prices[i], before.results + [Buy(prices[i], before.balance)]))
            && (!signals.smaEntry && signals.macdEntry && before.balance > 0.0 ==>
                  after == Ledger(settle(before.balance, prices[i]), before.results + [Sell(prices[i], before.balance)]))
            && (!Fires(signals, before.balance) ==> after == before)
  {
  }

  /** If no signal fires on any prefix, the run ends with the initial balance and an empty log
      (a constant series under the three indicators, for one). */
  lemma {:induction false} QuietSignalsNoEvents(prices: seq<real>, signal: seq<real> -> SignalSet,
                                                settle: (real, real) -> real, upto: nat)
    requires upto <= |prices|
    requires forall i :: FirstStep <= i < upto ==> !signal(prices[..i]).smaEntry && !signal(prices[..i]).macdEntry
    ensures Replay(prices, signal, settle, upto) == Ledger(InitialBalance, [])
  {
    if upto > FirstStep {
      QuietSignalsNoEvents(prices, signal, settle, upto - 1);
    }
  }

  /** A signal function that reports `sma_entry` as the signal generator computes it, and
      `macd_entry` only where the generator's MACD is defined and crosses, never fires on a
      constant series: the run keeps its initial balance and records nothing. */
  lemma ConstantSeriesNoEvents(prices: seq<real>, signal: seq<real> -> SignalSet,
                               settle: (real, real) -> real, v: real)
    requires Constant(prices, v)
    requires forall i :: FirstStep <= i < |prices| ==>
               && signal(prices[..i]).smaEntry == SmaEntry(prices[..i])
               && (signal(prices[..i]).macdEntry ==>
                     MacdDefined(i, MacdFast, MacdSlow, MacdSignal) && MacdEntry(prices[..i]))
    ensures Replay(prices, signal, settle, |prices|) == Ledger(InitialBalance, [])
  {
    forall i | FirstStep <= i < |prices|
      ensures !signal(prices[..i]).smaEntry && !signal(prices[..i]).macdEntry
    {
      var p := prices[..i];
      assert Constant(p, v);
      ConstantNoSmaEntry(p, v);
      if MacdDefined(i, MacdFast, MacdSlow, MacdSignal) {
        ConstantNoMacdEntry(p, v);
      }
    }
    QuietSignalsNoEvents(prices, signal, settle, |prices|);
  }
}
