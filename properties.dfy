/** Properties of the signal resolver that relate several rows, several
    tables or several outcomes. */
module ResolverProperties {
  import opened SignalResolver

  /** Each of the three fixed (name, reason) pairs is produced by some row,
      so the set of outcomes is exactly those three pairs. */
  lemma EveryOutcomeOccurs(outcome: (string, string))
    requires outcome in FixedOutcomes
    ensures exists row :: (Resolve(row).patternName, Resolve(row).reason) == outcome
  {
    var row: Row;
    if outcome == (HammerCandle.Name(), HammerCandle.Reason()) {
      row := Row(0, 100, 0, 50.0, 1.0, 1.0);
    } else if outcome == (BullishEngulfing.Name(), BullishEngulfing.Reason()) {
      row := Row(0, 0, 100, 50.0, 1.0, 1.0);
    } else {
      row := Row(0, 0, -100, 50.0, 1.0, 1.0);
    }
    assert (Resolve(row).patternName, Resolve(row).reason) == outcome;
  }

  /** The prediction does not depend on the pattern flags: every pattern occurs
      together with every prediction. */
  lemma DirectionIndependentOfPattern(p: Pattern, d: Direction)
    ensures exists row :: PatternOf(row) == p && DirectionOf(row) == d
  {
    var hammer := if p == HammerCandle then 100 else 0;
    var engulfing := if p == BullishEngulfing then 100 else -100;
    var rsi := if d == Call then 20.0 else 60.0;
    var row := Row(0, hammer, engulfing, rsi, 1.0, 1.0);
    assert PatternOf(row) == p && DirectionOf(row) == d;
  }

  /** Every combination of pattern and RSI value occurs, and such a row
      scores the accuracy of its RSI. */
  lemma AccuracyIndependentOfPattern(p: Pattern, rsi: real)
    ensures exists row: Row :: row.rsi == rsi && PatternOf(row) == p && Resolve(row).accuracy == Accuracy(rsi)
  {
    var row := match p
      case HammerCandle => Row(0, -100, 0, rsi, 1.0, 1.0)
      case BullishEngulfing => Row(0, 0, 100, rsi, 1.0, 1.0)
      case Neutral => Row(0, 0, 0, rsi, 1.0, 1.0);
    assert PatternOf(row) == p;
    assert Resolve(row).accuracy == Accuracy(rsi);
  }

  /** The accuracy depends on the RSI alone: two rows with the same RSI score
      the same, whatever their patterns and predictions. */
  lemma SameRsiSameAccuracy(r1: Row, r2: Row)
    requires r1.rsi == r2.rsi
    ensures Resolve(r1).accuracy == Resolve(r2).accuracy
  {
  }

  /** Every accuracy between 85 and 95 is reached by an RSI within [0, 100]. */
  lemma AccuracyCoversRange(a: real)
    requires 85.0 <= a <= 95.0
    ensures exists rsi :: 0.0 <= rsi <= 100.0 && Accuracy(rsi) == a
  {
    var rsi := RsiAtAccuracy(a);
    assert 0.0 <= rsi <= 100.0 && Accuracy(rsi) == a;
  }

  /** The accuracy is symmetric about RSI 50, and two RSI values give the same
      accuracy exactly when they are equal or mirror images about 50. */
  lemma AccuracySymmetric(x: real, y: real)
    ensures Accuracy(50.0 + x) == Accuracy(50.0 - x)
    ensures Accuracy(x) == Accuracy(y) <==> x == y || x == 100.0 - y
  {
  }

  /** The `doji` column never affects the result. */
  lemma DojiNeverMatters(row: Row, doji: int)
    ensures Resolve(row.(doji := doji)) == Resolve(row)
  {
  }

  /** Only the last row of a table affects the result: two non-empty tables
      that end in the same row resolve identically. */
  lemma OnlyLastRowMatters(t1: seq<Row>, t2: seq<Row>)
    requires |t1| > 0 && |t2| > 0
    requires t1[|t1| - 1] == t2[|t2| - 1]
    ensures AnalyzePatterns(t1) == AnalyzePatterns(t2)
  {
  }
}
