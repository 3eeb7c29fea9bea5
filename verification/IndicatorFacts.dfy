/** What the indicators measure, told without their recurrences: exact weights, sums, signs. */
module IndicatorFacts {
  import opened RealFacts
  import opened Indicators
  import opened IndicatorSeries

  // ---------- sums ----------

  lemma {:induction false} SumConcat(xs: seq<real>, ys: seq<real>)
    ensures Sum(xs + ys) == Sum(xs) + Sum(ys)
  {
    if ys == [] {
      assert xs + ys == xs;
    } else {
      var n := |ys| - 1;
      SumConcat(xs, ys[..n]);
      assert (xs + ys)[..|xs + ys| - 1] == xs + ys[..n];
    }
  }

  lemma SumOne(x: real)
    ensures Sum([x]) == x
  {
    assert [x][..0] == [];
  }

  lemma {:induction false} SumOrder(xs: seq<real>, ys: seq<real>)
    requires |xs| == |ys| && forall i | 0 <= i < |xs| :: xs[i] <= ys[i]
    ensures Sum(xs) <= Sum(ys)
  {
    if xs != [] { SumOrder(xs[..|xs| - 1], ys[..|ys| - 1]); }
  }

  lemma MeanTimes(sum: real, p: Period)
    ensures sum / p as real * p as real == sum
  {}

  // ---------- exponential averages ----------

  /** A further value counts with the weight two, against a weight of one less than the period for
      what came before. */
  lemma EmaWeights(vs: seq<real>, p: Period, after: real, v: real, before: real)
    requires |vs| > p && after == EmaValue(vs, p) && v == vs[|vs| - 1] && before == EmaValue(vs[..|vs| - 1], p)
    ensures after * (p + 1) as real == 2.0 * v + before * (p - 1) as real
  {
    EmaUnfolds(vs, p);
    StepWeights(v, before, p);
  }

  lemma EmaUnfolds(vs: seq<real>, p: Period)
    requires |vs| > p
    ensures EmaValue(vs, p) == EmaStep(vs[|vs| - 1], EmaValue(vs[..|vs| - 1], p), p)
  {}

  lemma StepWeights(v: real, before: real, p: Period)
    ensures EmaStep(v, before, p) * (p + 1) as real == 2.0 * v + before * (p - 1) as real
  {
    WeightsOf(v, before, Multiplier(p), (p + 1) as real, (p - 1) as real);
  }

  lemma WeightsOf(v: real, b: real, m: real, n: real, k: real)
    requires m * n == 2.0 && n == k + 2.0
    ensures ((v - b) * m + b) * n == 2.0 * v + b * k
  {
    Expand((v - b) * m, b, n);
    Regroup(v - b, m, n);
    Expand(k, 2.0, b);
  }

  lemma Expand(x: real, y: real, n: real)
    ensures (x + y) * n == x * n + y * n
  {}

  lemma Regroup(x: real, y: real, n: real)
    ensures x * y * n == x * (y * n)
  {}

  /** The first average is the mean of the first values. */
  lemma EmaStarts(vs: seq<real>, p: Period)
    requires |vs| == p
    ensures EmaValue(vs, p) * p as real == Sum(vs)
  {
    MeanTimes(Sum(vs), p);
  }

  /** MACD is the fast average less the slow one, from the slower period on, and its histogram is
      MACD less the signal, which averages the MACD values so far. */
  lemma MacdIs(closes: seq<real>, p: Periods)
    ensures MacdOf(closes, p).Some? <==> |closes| >= p.macdFast && |closes| >= p.macdSlow
    ensures MacdOf(closes, p).Some? ==>
              MacdOf(closes, p).value + EmaValue(closes, p.macdSlow) == EmaValue(closes, p.macdFast)
    ensures
      var h := Difference(MacdOf(closes, p), SignalOf(closes, p));
      && (h.Some? <==> MacdOf(closes, p).Some? && SignalOf(closes, p).Some?)
      && (h.Some? ==> h.value + SignalOf(closes, p).value == MacdOf(closes, p).value)
  {}

  lemma {:induction false} MacdsAt(closes: seq<real>, p: Periods, k: nat)
    requires k < |Macds(closes, p)|
    ensures MacdOf(closes[..Slower(p) + k], p) == Some(Macds(closes, p)[k])
  {
    var n := |closes| - 1;
    if k < |Macds(closes[..n], p)| {
      MacdsAt(closes[..n], p, k);
      assert closes[..n][..Slower(p) + k] == closes[..Slower(p) + k];
    } else {
      assert closes[..Slower(p) + k] == closes;
    }
  }

  // ---------- relative strength ----------

  /** Gains less losses are the whole change, gains and losses the way that was travelled. */
  lemma {:induction false} ChangesTelescope(vs: seq<real>)
    requires vs != []
    ensures Changes(vs).gain - Changes(vs).loss == vs[|vs| - 1] - vs[0]
    ensures Changes(vs).gain + Changes(vs).loss == Travelled(vs)
  {
    if |vs| > 1 { ChangesTelescope(vs[..|vs| - 1]); }
  }

  function Travelled(vs: seq<real>): real {
    if |vs| < 2 then 0.0 else Travelled(vs[..|vs| - 1]) + Abs(vs[|vs| - 1] - vs[|vs| - 2])
  }

  /** The first averages are those over the first changes. */
  lemma WilderStarts(vs: seq<real>, p: Period, a: Averages)
    requires |vs| == p + 1 && a == Wilder(vs, p)
    ensures (a.gain - a.loss) * p as real == vs[p] - vs[0]
    ensures (a.gain + a.loss) * p as real == Travelled(vs)
  {
    ChangesTelescope(vs);
    WilderStart(vs, p, a, Changes(vs));
  }

  lemma WilderStart(vs: seq<real>, p: Period, a: Averages, total: Averages)
    requires |vs| == p + 1 && a == Wilder(vs, p) && total == Changes(vs)
    ensures (a.gain - a.loss) * p as real == total.gain - total.loss
    ensures (a.gain + a.loss) * p as real == total.gain + total.loss
  {
    assert a == Averages(total.gain / p as real, total.loss / p as real);
    MeansOf(a, total, p);
  }

  lemma MeansOf(a: Averages, total: Averages, p: Period)
    requires a == Averages(total.gain / p as real, total.loss / p as real)
    ensures (a.gain - a.loss) * p as real == total.gain - total.loss
    ensures (a.gain + a.loss) * p as real == total.gain + total.loss
  {
    MeanTimes(total.gain, p);
    MeanTimes(total.loss, p);
    Expand(a.gain, -a.loss, p as real);
    Expand(a.gain, a.loss, p as real);
  }

  /** A further change moves each average towards its own part by the share of one period. */
  lemma WilderMoves(vs: seq<real>, p: Period, before: Averages, now: Averages, change: real)
    requires |vs| > p + 1 && before == Wilder(vs[..|vs| - 1], p) && now == Wilder(vs, p)
    requires change == vs[|vs| - 1] - vs[|vs| - 2]
    ensures (now.gain - before.gain) * p as real == (if change >= 0.0 then change else 0.0) - before.gain
    ensures (now.loss - before.loss) * p as real == (if change >= 0.0 then 0.0 else -change) - before.loss
  {
    WilderBy(vs, p, before, change);
    SmoothedMoves(before, now, change, p);
  }

  lemma SmoothedMoves(a: Averages, now: Averages, change: real, p: Period)
    requires now == Smoothed(a, change, p)
    ensures (now.gain - a.gain) * p as real == (if change >= 0.0 then change else 0.0) - a.gain
    ensures (now.loss - a.loss) * p as real == (if change >= 0.0 then 0.0 else -change) - a.loss
  {
    MovesBy(a.gain, Gain(change), p, now.gain);
    MovesBy(a.loss, Loss(change), p, now.loss);
  }

  lemma MovesBy(a: real, x: real, p: Period, now: real)
    requires now == (a * (p - 1) as real + x) / p as real
    ensures (now - a) * p as real == x - a
  {
    MeanTimes(a * (p - 1) as real + x, p);
    MovesFrom(a, x, now, p as real, (p - 1) as real);
  }

  lemma MovesFrom(a: real, x: real, now: real, n: real, k: real)
    requires now * n == a * k + x && n == k + 1.0
    ensures (now - a) * n == x - a
  {
    Expand(now, -a, n);
    Expand(k, 1.0, a);
  }

  /** The index is the share of the gains in per cent, and 50 if nothing has moved. */
  lemma RsiIs(vs: seq<real>, p: Period)
    requires |vs| > p
    ensures
      var a := Wilder(vs, p);
      && (a.gain + a.loss == 0.0 ==> Rsi(vs, p) == Some(50.0))
      && (a.gain + a.loss != 0.0 ==> Rsi(vs, p) == Some(100.0 * a.gain / (a.gain + a.loss)))
  {
    WilderNonneg(vs, p);
    var a := Wilder(vs, p);
    if a.loss > 0.0 {
      StrengthRatio(a);
    } else if a.gain > 0.0 {
      IsQuotient(100.0 * a.gain, a.gain, 100.0);
    }
  }

  // ---------- true range ----------

  function Min(x: real, y: real): real { if x <= y then x else y }

  /** The true range spans the candle and the close before it. */
  lemma TrueRangeSpans(c: Candle, previousClose: real)
    requires c.low <= c.high
    ensures TrueRange(c, previousClose) == Max(c.high, previousClose) - Min(c.low, previousClose)
    ensures TrueRange(c, previousClose) >= c.high - c.low
  {}

  lemma {:induction false} RangesAt(cs: seq<Candle>, k: nat)
    requires k + 1 < |cs|
    ensures Ranges(cs)[k] == TrueRange(cs[k + 1], cs[k].close)
  {
    if k + 1 < |cs| - 1 { RangesAt(cs[..|cs| - 1], k); }
  }

  /** The spans and the heights of the last `p` candles. */
  ghost predicate SpansOf(cs: seq<Candle>, p: Period, spans: seq<real>, heights: seq<real>)
    requires |cs| > p
  {
    && |spans| == |heights| == p
    && forall i | 0 <= i < p ::
         var c, before := cs[|cs| - p + i], cs[|cs| - p + i - 1].close;
         && spans[i] == Max(c.high, before) - Min(c.low, before)
         && heights[i] == c.high - c.low
  }

  /** ATR is the mean of the last `p` spans, each from the higher of a candle's high and the close
      before to the lower of its low and that close, so at least the mean of high less low. */
  lemma AtrIs(cs: seq<Candle>, p: Period, spans: seq<real>, heights: seq<real>, atr: Option<real>)
    requires atr == Atr(cs, p) && forall i | 0 <= i < |cs| :: cs[i].low <= cs[i].high
    requires |cs| > p ==> SpansOf(cs, p, spans, heights)
    ensures atr.Some? <==> |cs| > p
    ensures |cs| > p ==> atr.value * p as real == Sum(spans) >= Sum(heights)
  {
    if |cs| > p {
      LastRanges(cs, p, spans, heights);
      SumOrder(heights, spans);
      SmaTimes(Ranges(cs), p, spans, atr);
    }
  }

  lemma SmaTimes(vs: seq<real>, p: Period, last: seq<real>, mean: Option<real>)
    requires |vs| >= p && last == vs[|vs| - p..] && mean == Sma(vs, p)
    ensures mean.Some? && mean.value * p as real == Sum(last)
  {
    MeanTimes(Sum(last), p);
  }

  lemma LastRanges(cs: seq<Candle>, p: Period, spans: seq<real>, heights: seq<real>)
    requires |cs| > p && SpansOf(cs, p, spans, heights) && forall i | 0 <= i < |cs| :: cs[i].low <= cs[i].high
    ensures Ranges(cs)[|Ranges(cs)| - p..] == spans
    ensures forall i | 0 <= i < p :: heights[i] <= spans[i]
  {
    forall i | 0 <= i < p ensures Ranges(cs)[|Ranges(cs)| - p..][i] == spans[i] && heights[i] <= spans[i] {
      var k := |cs| - p + i;
      RangesAt(cs, k - 1);
      TrueRangeSpans(cs[k], cs[k - 1].close);
    }
  }

  // ---------- bands and volume ----------

  lemma {:induction false} SquaresAt(vs: seq<real>, m: real, k: nat)
    requires k < |vs|
    ensures Squares(vs, m)[k] == (vs[k] - m) * (vs[k] - m)
  {
    if k < |vs| - 1 { SquaresAt(vs[..|vs| - 1], m, k); }
  }

  lemma SquaresAre(vs: seq<real>, m: real, ds: seq<real>)
    requires |ds| == |vs| && forall i | 0 <= i < |vs| :: ds[i] == (vs[i] - m) * (vs[i] - m)
    ensures Squares(vs, m) == ds
  {
    forall i | 0 <= i < |vs| ensures Squares(vs, m)[i] == ds[i] { SquaresAt(vs, m, i); }
  }

  /** The middle is the mean of the last closes, and the variance the mean of the squares of their
      distances from it. */
  lemma BandsAre(closes: seq<real>, p: Period, last: seq<real>, m: real, ds: seq<real>, variance: real)
    requires |closes| >= p && last == closes[|closes| - p..] && |ds| == p
    requires Sma(closes, p) == Some(m) && Variance(closes, p) == Some(variance)
    requires forall i | 0 <= i < p :: ds[i] == (last[i] - m) * (last[i] - m)
    ensures m * p as real == Sum(last) && variance * p as real == Sum(ds)
  {
    SquaresAre(last, m, ds);
    SmaTimes(closes, p, last, Some(m));
    MeanTimes(Sum(ds), p);
  }

  /** The ratio says how many average volumes a volume is. */
  lemma VolumeRatioIs(volume: real, average: Option<real>)
    ensures VolumeRatio(volume, average).Some? <==> average.Some? && average.value > 0.0
    ensures VolumeRatio(volume, average).Some? ==> VolumeRatio(volume, average).value * average.value == volume
  {}

  /** Every field of a point, by name. */
  lemma PointFields(cs: seq<Candle>, p: Periods, k: nat)
    requires k < |cs|
    ensures
      var q, seen := Points(cs, p)[k], cs[..k + 1];
      var closes := Closes(seen);
      && q.timestamp == cs[k].timestamp && q.close == cs[k].close
      && q.emaFast == Ema(closes, p.emaFast) && q.emaSlow == Ema(closes, p.emaSlow)
      && q.rsi == Rsi(closes, p.rsi) && q.atr == Atr(seen, p.atr)
      && q.macd == MacdOf(closes, p) && q.macdSignal == SignalOf(closes, p)
      && q.macdHistogram == Difference(q.macd, q.macdSignal)
      && q.bbMiddle == Sma(closes, p.bb) && q.bbVariance == Variance(closes, p.bb)
      && q.volumeSma == Sma(Volumes(seen), p.volumeSma) && q.volumeRatio == VolumeRatio(cs[k].volume, q.volumeSma)
      && q.ema20 == (if p.emaFast == 20 then q.emaFast else None)
      && q.ema50 == (if p.emaSlow == 50 then q.emaSlow else None)
      && q.rsi14 == (if p.rsi == 14 then q.rsi else None) && q.atr14 == (if p.atr == 14 then q.atr else None)
      && q.volumeSma20 == (if p.volumeSma == 20 then q.volumeSma else None)
  {
    PointAt(cs, p, k);
  }

  lemma {:induction false} VolumesAt(candles: seq<Candle>, k: nat)
    requires k < |candles|
    ensures Volumes(candles)[k] == candles[k].volume
  {
    if k < |candles| - 1 { VolumesAt(candles[..|candles| - 1], k); }
  }

  /** The default periods. */
  lemma Defaults()
    ensures DEFAULTS.emaFast == 20 && DEFAULTS.emaSlow == 50 && DEFAULTS.rsi == 14 && DEFAULTS.atr == 14
    ensures DEFAULTS.macdFast == 12 && DEFAULTS.macdSlow == 26 && DEFAULTS.macdSignal == 9
    ensures DEFAULTS.bb == 20 && DEFAULTS.volumeSma == 20
  {}
}
