/** The signal resolver at the end of `analyze_patterns` in app.py: it takes
    the last row of the enriched price table and turns it into a prediction
    ("CALL" or "PUT"), a synthetic accuracy score, a rationale and a pattern
    name. The pattern flags and the indicators on a row are produced by
    foreign libraries and are taken here as given values. */
module SignalResolver {

  /** One row of the enriched table, restricted to the columns the resolver
      reads (and `doji`, which is computed beside them but never read).
      The candlestick flags are the integers the detectors return (0 means
      "absent"; for `engulfing` a positive value is bullish, a negative one
      bearish). `rsi` and `ema20` are the 14-period RSI and 20-period EMA. */
  datatype Row = Row(doji: int, hammer: int, engulfing: int, rsi: real, close: real, ema20: real)

  /** The three outcomes of the pattern chain, each with its fixed name and
      rationale text. */
  datatype Pattern = HammerCandle | BullishEngulfing | Neutral {

    function Name(): (name: string) {
      match this
      case HammerCandle => "Hammer Candle"
      case BullishEngulfing => "Bullish Engulfing"
      case Neutral => "Neutral"
    }

    function Reason(): (reason: string) {
      match this
      case HammerCandle => "A Hammer indicates a potential bullish reversal at support levels."
      case BullishEngulfing => "The current candle completely swallowed the previous one, signaling strong momentum."
      case Neutral => "No strong pattern"
    }
  }

  datatype Direction = Call | Put {

    function Text(): (text: string) {
      if Call? then "CALL" else "PUT"
    }
  }

  /** What `analyze_patterns` returns, in the order of its tuple. */
  datatype Signal = Signal(prediction: Direction, accuracy: real, reason: string, patternName: string)

  /** The only (name, reason) pairs the resolver can produce. */
  const FixedOutcomes: set<(string, string)> :=
    {(HammerCandle.Name(), HammerCandle.Reason()),
     (BullishEngulfing.Name(), BullishEngulfing.Reason()),
     (Neutral.Name(), Neutral.Reason())}

  /** Python's `abs` on a number. */
  function Abs(x: real): (r: real) {
    if x < 0.0 then -x else x
  }

  /** The pattern chain: first match wins, Hammer before Bullish Engulfing,
      and Neutral when neither fires. */
  function PatternOf(row: Row): (p: Pattern)
    ensures p == HammerCandle <==> row.hammer != 0
    ensures p == BullishEngulfing <==> row.hammer == 0 && row.engulfing > 0
    ensures p == Neutral <==> row.hammer == 0 && row.engulfing <= 0
  {
    if row.hammer != 0 then HammerCandle
    else if row.engulfing > 0 then BullishEngulfing
    else Neutral
  }

  /** The prediction: CALL when the RSI is below 40 or the close is above the
      EMA, PUT otherwise. */
  function DirectionOf(row: Row): (d: Direction)
    ensures d == Call <==> row.rsi < 40.0 || row.close > row.ema20
    ensures d == Put <==> 40.0 <= row.rsi && row.close <= row.ema20
  {
    if row.rsi < 40.0 || row.close > row.ema20 then Call else Put
  }

  /** The simulated accuracy, a function of the RSI alone. It is never below
      85, reaches 85 exactly at RSI 50 and 95 exactly at RSI 0 and 100, and
      stays within [85, 95] while the RSI stays within [0, 100]. */
  function Accuracy(rsi: real): (a: real)
    ensures a >= 85.0
    ensures a == 85.0 <==> rsi == 50.0
    ensures a == 95.0 <==> rsi == 0.0 || rsi == 100.0
    ensures 0.0 <= rsi <= 100.0 ==> a <= 95.0
  {
    85.0 + Abs(50.0 - rsi) / 5.0
  }

  /** The inverse of `Accuracy` on RSI values of at least 50: the RSI at which
      a given accuracy is reached. Its mirror image `100 - rsi` reaches the
      same accuracy. */
  function RsiAtAccuracy(a: real): (rsi: real)
    requires a >= 85.0
    ensures rsi >= 50.0
    ensures Accuracy(rsi) == a && Accuracy(100.0 - rsi) == a
    ensures a <= 95.0 ==> rsi <= 100.0
  {
    50.0 + 5.0 * (a - 85.0)
  }

  /** The decision made on one row: pattern name and reason from the pattern
      chain, prediction and accuracy from the indicators. */
  function Resolve(row: Row): (s: Signal)
    ensures (s.patternName, s.reason) in FixedOutcomes
    ensures row.hammer != 0 ==> s.patternName == "Hammer Candle" && s.reason == HammerCandle.Reason()
    ensures s.patternName == "Bullish Engulfing" <==> row.hammer == 0 && row.engulfing > 0
    ensures s.patternName == "Neutral" <==> row.hammer == 0 && row.engulfing <= 0
    ensures s.patternName == "Neutral" ==> s.reason == "No strong pattern"
    ensures s.prediction == Call <==> row.rsi < 40.0 || row.close > row.ema20
    ensures s.prediction.Text() == "CALL" <==> row.rsi < 40.0 || row.close > row.ema20
    ensures s.prediction.Text() == "PUT" <==> 40.0 <= row.rsi && row.close <= row.ema20
    ensures s.accuracy == Accuracy(row.rsi)
    ensures s.accuracy >= 85.0
    ensures 0.0 <= row.rsi <= 100.0 ==> s.accuracy <= 95.0
  {
    var p := PatternOf(row);
    Signal(DirectionOf(row), Accuracy(row.rsi), p.Reason(), p.Name())
  }

  /** `analyze_patterns` on an enriched table: only its last row is looked at.
      The table must not be empty (app.py's `iloc[-1]` raises on an empty
      table). */
  function AnalyzePatterns(table: seq<Row>): (s: Signal)
    requires |table| > 0
    ensures s == Resolve(table[|table| - 1])
  {
    Resolve(table[|table| - 1])
  }
}
