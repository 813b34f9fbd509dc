# QXbot-V2 signal resolver in Dafny

QXbot-V2 is a Streamlit dashboard. It fetches one day of one-minute price bars
for a chosen asset. It enriches them with three candlestick-pattern flags
(Doji, Hammer, Engulfing), a 14-period RSI and a 20-period EMA. Then it turns
the last row into a trading signal. The only decision logic is at the end of
`analyze_patterns` in `app.py`, and that resolver is what this project models:

- **Last row.** It picks the table's last row (`df.iloc[-1]`).
- **Pattern.** A first-match-wins chain chooses the pattern name and the
  rationale. Hammer comes first, then Bullish Engulfing, and Neutral is the
  default.
- **Prediction.** The call is "CALL" when RSI < 40 or Close > EMA_20, and
  "PUT" otherwise.
- **Accuracy.** A synthetic score, `85 + |50 - RSI| / 5`.

`resolver.dfy` (module `SignalResolver`) holds these types:

- `Row`: the columns the resolver reads, plus `doji`.
- `Pattern`: the three outcomes, with their fixed names and reasons.
- `Direction`: CALL or PUT.
- `Signal`: the returned tuple.

The same file holds the resolver as pure functions. `properties.dfy` (module
`ResolverProperties`) holds lemmas that relate several rows, tables or
outcomes. Dafny's `real` is exact, so the comparisons and the accuracy formula
are stated without floating-point error.

Three facts about the code shape the model:

- The resolver has no error results, so the model has none.
- The accuracy lies in [85, 95] only while the RSI lies in [0, 100]. Nothing
  in the resolver clamps it.
- An empty table is a caller obligation (`requires |table| > 0`), because
  `df.iloc[-1]` (app.py:44) raises on an empty table.

## Model

| member | source | states |
|---|---|---|
| `SignalResolver.PatternOf` | app.py:47-55 | Hammer exactly when `Hammer != 0`, whatever `Engulfing` holds. Bullish Engulfing exactly when `Hammer == 0` and `Engulfing > 0`, so a bearish (negative) engulfing never yields it. Neutral exactly when `Hammer == 0` and `Engulfing <= 0`. |
| `SignalResolver.DirectionOf` | app.py:57 | CALL if and only if RSI < 40 or Close > EMA_20. PUT if and only if RSI >= 40 and Close <= EMA_20. Only these three columns are read. |
| `SignalResolver.Accuracy` | app.py:58 | The score is never below 85. It equals 85 exactly at RSI 50 and 95 exactly at RSI 0 or 100. It is at most 95 whenever RSI lies in [0, 100]. |
| `SignalResolver.RsiAtAccuracy` | app.py:58 | Inverse of the accuracy formula. For every score of at least 85, it gives an RSI of at least 50 that reaches that score. The mirror RSI `100 - rsi` reaches the same score. Scores up to 95 come from RSI values up to 100. |
| `SignalResolver.Resolve` | app.py:47-58 | The (name, reason) pair is always one of the three fixed pairs. Hammer wins over engulfing, and Bullish Engulfing needs a positive engulfing flag with no hammer. Neutral comes with "No strong pattern". The prediction is CALL (text "CALL") if and only if RSI < 40 or Close > EMA_20, and "PUT" otherwise. The accuracy is the score of the row's RSI alone: at least 85, and at most 95 for RSI in [0, 100]. |
| `SignalResolver.AnalyzePatterns` | app.py:44-60 | A non-empty table resolves as its last row does. |
| `ResolverProperties.EveryOutcomeOccurs` | app.py:47-55 | Each of the three fixed (name, reason) pairs is produced by some row. Together with `Resolve`, the outcomes are exactly those three pairs. |
| `ResolverProperties.DirectionIndependentOfPattern` | app.py:50-57 | Every pattern occurs together with both CALL and PUT, so the pattern flags do not decide the prediction. |
| `ResolverProperties.AccuracyIndependentOfPattern` | app.py:50-58 | Every combination of pattern and RSI value occurs in some row, and that row scores `Accuracy(rsi)`. |
| `ResolverProperties.SameRsiSameAccuracy` | app.py:58 | Two rows with the same RSI get the same score, whatever their pattern flags, close and EMA. |
| `ResolverProperties.AccuracyCoversRange` | app.py:58 | Every score in [85, 95] is reached by some RSI in [0, 100]. |
| `ResolverProperties.AccuracySymmetric` | app.py:58 | The score is symmetric about RSI 50. Two RSI values give the same score exactly when they are equal or mirror each other about 50. |
| `ResolverProperties.DojiNeverMatters` | app.py:36-60 | Changing the Doji flag never changes any field of the result. |
| `ResolverProperties.OnlyLastRowMatters` | app.py:44-60 | Two non-empty tables that end in the same row resolve to the same signal. |

## Left out

- `round(accuracy, 2)` (Python float rounding) is not modelled. `Accuracy` and `Signal.accuracy` are the exact real score.
- The candlestick detectors `talib.CDLDOJI`, `CDLHAMMER` and `CDLENGULFING`, and the `ta.rsi` / `ta.ema` indicators, are calls into foreign floating-point libraries. Their outputs are unconstrained fields of `Row`.
- Adding the indicator columns to the caller's DataFrame in place is not modelled. `Row` already carries them.
- Tables shorter than the RSI or EMA look-back are not modelled. What the code does on them depends on the indicator library (NaN values or missing columns). `Row` holds reals, so every row in the model has defined indicators.
- Market-data retrieval (`get_live_data` through yfinance) is network I/O.
- Authentication (`check_auth`), page setup, buttons, status widgets, the candlestick chart and the history table are user interface and session state.
- The history append, `time.sleep` and the unused scikit-learn import have no effect on the signal.
