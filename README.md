# AlphaScout trading-signal core in Dafny

AlphaScout watches Solana token contracts, derives technical-analysis signals from price and
balance series, and sends alerts. This project models its deterministic core and proves
properties of that model:

- **strategy.py**: the indicator library and the signal generator.
  - `moving_average` is a simple moving average.
  - `relative_strength_index` is an RSI over the whole series.
  - `macd` is built from simple moving averages.
  - `strategy_analysis` turns them into three entry booleans.
  - Module `Strategy`, file `strategy.dfy`. Numeric helpers (sum, mean, min, max) are in `Series`, file `series.dfy`.
- **backtest.py**: `backtest_strategy` replays the signals over growing price prefixes. It buys or sells one unit per step while the balance is positive.
  - Module `Backtest`.
  - The loop is an imperative method, proved equal to the step function `Replay`.
  - The properties of the replay are lemmas about `Replay`.
- **analysis.py**: `find_support_resistance` and `analyze_token_data`. Module `Analysis`.
- **utils.py**: `process_token_data`, which turns raw token-account records into amounts. Module `Utils`.
  - The loop is a method, proved equal to the recursive specification `TokenAmounts`.
- **main.py**: `analyze_contract_data`, the live-alert variant of the support/resistance estimate. Module `ContractAnalysis`.
- **historical_data.py**: `analyze_historical_data` once the price table is fetched. Module `HistoricalData`.

Modelling choices:

- Prices and amounts are `real`.
- A raw record is reduced to what the core reads:
  - whether it has an `account` key;
  - the number at `account.data.parsed.info.tokenAmount.uiAmount`, if that path is complete.
- A `KeyError` while reading that path becomes `Err(MissingAmount(index))`, where `index` is the first failing record.
- numpy reductions that the code calls on an empty or too-short series, where they would fail or give NaN, are excluded by preconditions.

Points where the code differs from the textbook indicators, and the model follows the code:

- With no losses, the RSI is 0, not the textbook 100.
  - Source: strategy.py:31-32. `rs` is set to 0, so `100 - 100/(1+0)` is 0.
  - So the RSI lies in [0, 100) and never reaches 100.
- The MACD subtraction does not align the two averages to a common tail.
  - Source: strategy.py:50. It is numpy element-wise subtraction with broadcasting: equal lengths, or one side of length 1.
  - With the default periods 12/26/9 and both windows within the series, the model defines `macd` and so `strategy_analysis` only on exactly 26 prices. (numpy's operand swap in `np.convolve` also lets the source run them on 12 and on 19 prices; see "## Left out".)
- The sell branch's balance update is not in the source.
  - The file breaks off inside the sell record (backtest.py:38), before any balance update on a sell.
  - The model therefore takes that update as a parameter `settle`.

## Model

| member | source | states |
|---|---|---|
| Series.Min | analysis.py:16 | the minimum is an element of the series and at or below every element |
| Series.Max | analysis.py:17 | the maximum is an element of the series and at or above every element |
| Strategy.MovingAverage | strategy.py:16 | for `1 <= window <= n` the result has `n - window + 1` entries and entry k is the mean of `prices[k..k+window]` |
| Strategy.MovingAverageConstant | strategy.py:16 | a constant series of value v has a moving average that is all v |
| Strategy.GainLossNonNegative | strategy.py:27-29 | the average gain and the average loss are both non-negative |
| Strategy.RelativeStrengthIndex | strategy.py:27-34 | the RSI lies in [0, 100) and is 0 exactly when the average gain or the average loss is 0 |
| Strategy.RsiIgnoresWindow | strategy.py:18-34 | the `window` argument does not change the RSI |
| Strategy.RsiAsGainShare | strategy.py:31-32 | with a positive average loss the RSI is `100 * gain / (gain + loss)` |
| Strategy.SumGainsMinusLosses | strategy.py:28-29 | the gains minus the losses add up to the sum of the differences |
| Strategy.SumDiffTelescopes | strategy.py:27 | the first differences add up to the last price minus the first |
| Strategy.GainMinusLossIsAverageChange | strategy.py:27-29 | average gain minus average loss is `(last - first) / (n - 1)`: the means run over all n-1 differences, not a trailing window |
| Strategy.NonDecreasingRsiIsZero | strategy.py:28-32 | a series that never falls has zero average loss and an RSI of exactly 0 |
| Strategy.Subtract | strategy.py:50 | broadcasting subtraction: the result has the longer length, and a length-1 operand is repeated against every element of the other |
| Strategy.Macd | strategy.py:36-53 | the MACD line is as long as the longer average (the smaller window), and entry k is the fast-window mean minus the slow-window mean at k, a length-1 average being broadcast (its single mean at every k); the signal line has `|macd| - signal + 1` entries, each the mean of `signal` consecutive MACD values |
| Strategy.MacdDefaultDomain | strategy.py:47-50 | with periods 12/26/9 and both windows within the series, the subtraction broadcasts exactly when the series has 26 prices |
| Strategy.MacdOnDefaultDomain | strategy.py:47-51 | on 26 prices the MACD line has 15 values, each a 12-price mean minus the mean of all 26 prices, and the signal line has 7 values |
| Strategy.StrategyAnalysis | strategy.py:55-78 | `sma_entry` iff the last price exceeds the mean of the last 14; `rsi_entry` iff the RSI is below 30; a series that never falls always raises `rsi_entry` |
| Strategy.SmaEntryMeaning | strategy.py:66-67 | `sma_entry` holds exactly when the last price exceeds the mean of the last 14 prices |
| Strategy.MacdEntryMeaning | strategy.py:74-75 | the MACD line has at least 9 values, and `macd_entry` holds exactly when the last MACD value exceeds the mean of the last 9 MACD values |
| Strategy.StrictlyIncreasingSmaEntry | strategy.py:66-67 | a strictly increasing series of at least 14 prices raises `sma_entry` |
| Strategy.ConstantNoSmaEntry | strategy.py:66-67 | a constant series never raises `sma_entry` |
| Strategy.NonDecreasingRsiEntry | strategy.py:70-71 | a series that never falls (a constant one included) always raises `rsi_entry` |
| Strategy.ConstantNoMacdEntry | strategy.py:74-75 | a constant series never raises `macd_entry`: the MACD and signal lines are all 0 |
| Backtest.Step | backtest.py:24-38 | one step appends at most one event, keeps the earlier log as a prefix, and appends exactly when the balance is positive and a signal fires |
| Backtest.BacktestStrategy | backtest.py:17-38 | the loop from step 14 ends with exactly the balance and the log of `Replay` over all steps, starting from 1000 |
| Backtest.EventStepsOrdered | backtest.py:20-22 | the steps at which events were recorded strictly increase and lie in `14 .. len - 1` |
| Backtest.ReplayLogLength | backtest.py:26-36 | the log holds one event per recorded step |
| Backtest.ReplayEvent | backtest.py:24-37 | the k-th event holds the price of the k-th recorded step and the positive balance before it, and is a buy exactly when `sma_entry` fired on the prefix that leaves out that price |
| Backtest.EventStepsComplete | backtest.py:24-33 | every step at which the balance was positive and a signal fired is among the recorded steps |
| Backtest.ReplayAppendOnly | backtest.py:26-36 | every earlier log is a prefix of every later one |
| Backtest.ReplayLength | backtest.py:20-36 | a run has at most `len - 14` events |
| Backtest.BalanceGuard | backtest.py:24-33 | once the balance is at or below 0 the state never changes again |
| Backtest.StepEffect | backtest.py:24-38 | a buy records the step's price and the balance before it, and lowers the balance by exactly that price; otherwise a sell records the same two values; a step where nothing fires changes nothing |
| Backtest.QuietSignalsNoEvents | backtest.py:17-38 | if no signal fires on any prefix, the run ends with balance 1000 and an empty log |
| Backtest.ConstantSeriesNoEvents | backtest.py:20-38 | on a constant series the strategy's `sma_entry` and `macd_entry` never fire, so the run ends with balance 1000 and no events |
| Analysis.FindSupportResistance | analysis.py:8-19 | support and resistance are elements of the series, and every price lies between them |
| Analysis.SupportBelowResistance | analysis.py:16-17 | the support is at or below the resistance |
| Analysis.AnalyzeTokenData | analysis.py:21-50 | a missing amount gives the error of the first such record; fewer than two records give `None`; otherwise support and resistance are amounts of records bounding every amount, entry is support * 1.05 and exit is resistance * 0.95, and these lie inside the range when it is non-negative |
| Analysis.AnalyzeTokenDataExample | analysis.py:36-47 | the amounts 5, 3, 9, 1 give support 1, resistance 9, entry 1.05 and exit 8.55 |
| Utils.TokenAmounts | utils.py:61-65 | succeeds exactly when every record has an amount; then one amount per record, in record order; otherwise the error names the first record without one |
| Utils.ProcessTokenData | utils.py:53-65 | the append loop returns exactly `TokenAmounts` of the records |
| ContractAnalysis.Balances | main.py:84-85 | fails exactly when some record has `account` but no amount, naming the first; otherwise every balance is the amount of some record, and there are no more balances than records |
| ContractAnalysis.AmountIsBalance | main.py:84-85 | the amount of every record that has one is among the balances |
| ContractAnalysis.NoBalanceIffNoAccount | main.py:84-88 | the balance list is empty exactly when no record has an `account` key |
| ContractAnalysis.BalancesMatchTokenAmounts | main.py:84-85 | when every record has `account`, the comprehension gives the same result as `process_token_data` |
| ContractAnalysis.AnalyzeContractData | main.py:69-102 | missing or empty data gives `None`; it fails exactly when the comprehension fails; the result is `None` exactly when no record has `account`; otherwise the report holds the least and the greatest balance, entry `min * (1 + T)` and exit `max * (1 - T)` |
| ContractAnalysis.ReportOn | main.py:87-102 | no report exactly for an empty balance list; otherwise the report is that of the least and the greatest balance |
| ContractAnalysis.ExtremesAreRange | main.py:90-91 | `min` and `max` are balances, `min <= max`, and every balance lies between them |
| ContractAnalysis.TargetsInsideRange | main.py:94-95 | for T >= 0, the entry is at or above a non-negative minimum and the exit is at or below a non-negative maximum |
| ContractAnalysis.AgreesWithTokenAnalysis | main.py:90-95 | with T = 0.05 and every record carrying `account`, the result has the same levels, targets and errors as `analyze_token_data` |
| HistoricalData.AnalyzeHistoricalData | historical_data.py:46-62 | an empty table gives the empty result; otherwise `sma` is the mean of the last 14 prices, `entry_signal` iff the last price is above it and `exit_signal` iff below |
| HistoricalData.SignalsExclusive | historical_data.py:57-58 | entry and exit never both hold, and both are off exactly when the last price equals `sma` |
| HistoricalData.EntryMatchesSmaEntry | historical_data.py:57 | `entry_signal` equals `sma_entry` of `strategy_analysis` on the same prices |
| HistoricalData.TrendSignals | historical_data.py:57-58 | a strictly increasing series signals entry and not exit; a constant one signals neither |

## Left out

- Network and process glue is not modelled. That covers the Solana RPC fetch and its time-based in-memory cache, the historical-data HTTP fetch, the on-disk JSON cache, Telegram alerts, the real-time polling loop and all logging. These are I/O, clocks and sleeps.
- IEEE floating point is not modelled: no rounding, NaN or infinities. Prices are exact `real`s.
- Utils.TokenAmounts: `float()` coercion is not modelled. A null `uiAmount` makes `float(None)` raise in `process_token_data`; the model treats it like a missing key, as an error.
- ContractAnalysis.Balances: the comprehension applies no `float()`, so a null `uiAmount` enters `balances` and the `TypeError` comes later, from `max`/`min` or the multiplications (main.py:90-95). The model reports it at the comprehension, as `Err(MissingAmount(index))`; the outcome is the same failure, raised at a different line.
- numpy's operand swap in `np.convolve` when the window exceeds the series is excluded by the precondition `1 <= window <= len`. So the model gives no MACD (and no `strategy_analysis`) for 12 prices, where the fast average has one value and broadcasts against the slow average's 15, nor for 19 prices, where both have 8 values; real numpy accepts both through that path. It also gives no historical SMA on 1 to 13 prices.
- Strategy.RelativeStrengthIndex: models `delta.where(...)` as pandas `Series.where` (keep the value where the condition holds, else 0). As written, `np.diff` returns a numpy ndarray, which has no `.where` method, so strategy.py:28 raises `AttributeError` on every input, a list or a pandas Series. `strategy_analysis` therefore always raises, and `backtest_strategy` raises at step 14 whenever there are 15 or more rows. The model gives the RSI the evident intent instead of that failure.
- Strategy.RelativeStrengthIndex: requires at least two prices. With fewer, numpy's mean of an empty array is NaN, and NaN is not modelled.
- Strategy.StrategyAnalysis: defined only where its MACD runs, which with periods 12/26/9 is exactly 26 prices. It states the `macd_entry` meaning through `Strategy.MacdEntryMeaning` rather than in its own contract.
- Backtest.BacktestStrategy: the signal function is a parameter rather than `strategy_analysis` itself, since that is defined only on 26-price prefixes. `Backtest.ConstantSeriesNoEvents` connects the two.
- Backtest.BacktestStrategy: the balance after a sell is a parameter `settle`, because the source breaks off before that update. Reading prices by position stands in for pandas label indexing.
- `historical_data.py` calls `moving_average` without importing it. The model assumes the import.
- `ALERT_THRESHOLD` comes from `config.py`, which is not part of this model. It is the parameter `threshold`.
