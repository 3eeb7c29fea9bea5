/** Technical indicators over candles, with reals for numbers. */
module Indicators {
  import opened RealFacts

  datatype Option<T> = None | Some(value: T)

  datatype Candle = Candle(timestamp: int, open: real, high: real, low: real, close: real, volume: real)

  const MIN_PERIOD := 2
  const MAX_PERIOD := 200

  type Period = p: int | MIN_PERIOD <= p <= MAX_PERIOD witness 2

  datatype Periods = Periods(
    emaFast: Period, emaSlow: Period, rsi: Period, atr: Period,
    macdFast: Period, macdSlow: Period, macdSignal: Period, bb: Period, volumeSma: Period)

  const DEFAULTS := Periods(20, 50, 14, 14, 12, 26, 9, 20, 20)

  /** The bands of the source are the middle plus and minus twice the root of the variance. */
  datatype Point = Point(
    timestamp: int, close: real,
    emaFast: Option<real>, emaSlow: Option<real>, rsi: Option<real>, atr: Option<real>,
    macd: Option<real>, macdSignal: Option<real>, macdHistogram: Option<real>,
    bbMiddle: Option<real>, bbVariance: Option<real>, volumeSma: Option<real>, volumeRatio: Option<real>,
    ema20: Option<real>, ema50: Option<real>, rsi14: Option<real>, atr14: Option<real>, volumeSma20: Option<real>)

  // ---------- averages ----------

  function Sum(vs: seq<real>): real {
    if vs == [] then 0.0 else Sum(vs[..|vs| - 1]) + vs[|vs| - 1]
  }

  function Sma(vs: seq<real>, p: Period): Option<real> {
    if |vs| < p then None else Some(Sum(vs[|vs| - p..]) / p as real)
  }

  function Multiplier(p: Period): (m: real)
    ensures 0.0 < m < 1.0
  {
    2.0 / (p + 1) as real
  }

  function EmaStep(v: real, before: real, p: Period): real {
    (v - before) * Multiplier(p) + before
  }

  /** The mean of the first values, then one smoothing step per further value. */
  function EmaValue(vs: seq<real>, p: Period): real
    requires |vs| >= p
  {
    if |vs| == p then Sum(vs) / p as real
    else EmaStep(vs[|vs| - 1], EmaValue(vs[..|vs| - 1], p), p)
  }

  function Ema(vs: seq<real>, p: Period): Option<real> {
    if |vs| < p then None else Some(EmaValue(vs, p))
  }

  lemma EmaMore(vs: seq<real>, i: nat, p: Period)
    requires p <= i < |vs|
    ensures EmaValue(vs[..i + 1], p) == EmaStep(vs[i], EmaValue(vs[..i], p), p)
  {
    assert vs[..i + 1][..i] == vs[..i];
  }

  method ComputeSum(vs: seq<real>) returns (sum: real)
    ensures sum == Sum(vs)
  {
    sum := 0.0;
    var i := 0;
    while i < |vs|
      invariant 0 <= i <= |vs| && sum == Sum(vs[..i])
    {
      assert vs[..i + 1][..i] == vs[..i];
      sum := sum + vs[i];
      i := i + 1;
    }
    assert vs[..i] == vs;
  }

  method ComputeEma(vs: seq<real>, p: Period) returns (r: Option<real>)
    ensures r == Ema(vs, p)
  {
    if |vs| < p { return None; }
    var sum := ComputeSum(vs[..p]);
    var result := sum / p as real;
    var i: int := p;
    while i < |vs|
      invariant p <= i <= |vs| && result == EmaValue(vs[..i], p)
    {
      EmaMore(vs, i, p);
      result := EmaStep(vs[i], result, p);
      i := i + 1;
    }
    assert vs[..i] == vs;
    r := Some(result);
  }

  ghost predicate Within(vs: seq<real>, lo: real, hi: real) {
    forall i | 0 <= i < |vs| :: lo <= vs[i] <= hi
  }

  lemma {:induction false} SumWithin(vs: seq<real>, lo: real, hi: real)
    requires Within(vs, lo, hi)
    ensures lo * |vs| as real <= Sum(vs) <= hi * |vs| as real
  {
    if vs != [] {
      var n := |vs| - 1;
      SumWithin(vs[..n], lo, hi);
      assert lo * (n + 1) as real == lo * n as real + lo;
      assert hi * (n + 1) as real == hi * n as real + hi;
    }
  }

  lemma MeanWithin(vs: seq<real>, p: Period, lo: real, hi: real)
    requires Within(vs, lo, hi) && |vs| == p
    ensures lo <= Sum(vs) / p as real <= hi
  {
    SumWithin(vs, lo, hi);
    QuotientBounds(Sum(vs), lo, hi, p as real);
  }

  lemma StepUp(d: real, b: real, m: real, lo: real, hi: real)
    requires lo <= b && d + b <= hi && 0.0 <= m <= 1.0 && d >= 0.0
    ensures lo <= d * m + b <= hi
  {
    PartOf(d, m);
  }

  lemma StepDown(d: real, b: real, m: real, lo: real, hi: real)
    requires b <= hi && lo <= d + b && 0.0 <= m <= 1.0 && d <= 0.0
    ensures lo <= d * m + b <= hi
  {
    PartOfNegative(d, m);
  }

  /** A step of a part of the way between two bounded values stays between the bounds. */
  lemma ConvexStep(d: real, b: real, m: real, lo: real, hi: real)
    requires lo <= b <= hi && lo <= d + b <= hi && 0.0 <= m <= 1.0
    ensures lo <= d * m + b <= hi
  {
    if d >= 0.0 { StepUp(d, b, m, lo, hi); } else { StepDown(d, b, m, lo, hi); }
  }

  /** An exponential average stays within the bounds of its inputs. */
  lemma {:induction false} EmaWithin(vs: seq<real>, p: Period, lo: real, hi: real)
    requires Within(vs, lo, hi) && |vs| >= p
    ensures lo <= EmaValue(vs, p) <= hi
  {
    if |vs| == p {
      MeanWithin(vs, p, lo, hi);
    } else {
      var n := |vs| - 1;
      assert Within(vs[..n], lo, hi);
      EmaWithin(vs[..n], p, lo, hi);
      EmaStepWithin(vs[n], EmaValue(vs[..n], p), p, lo, hi);
    }
  }

  lemma EmaStepWithin(v: real, before: real, p: Period, lo: real, hi: real)
    requires lo <= v <= hi && lo <= before <= hi
    ensures lo <= EmaStep(v, before, p) <= hi
  {
    ConvexStep(v - before, before, Multiplier(p), lo, hi);
  }

  // ---------- relative strength ----------

  datatype Averages = Averages(gain: real, loss: real)

  function Gain(change: real): real { if change >= 0.0 then change else 0.0 }

  function Loss(change: real): real { if change >= 0.0 then 0.0 else -change }

  function Changes(vs: seq<real>): (r: Averages) {
    if |vs| < 2 then Averages(0.0, 0.0)
    else
      var n := |vs| - 1;
      var before := Changes(vs[..n]);
      var change := vs[n] - vs[n - 1];
      Averages(before.gain + Gain(change), before.loss + Loss(change))
  }

  function Smoothed(a: Averages, change: real, p: Period): Averages {
    Averages((a.gain * (p - 1) as real + Gain(change)) / p as real,
             (a.loss * (p - 1) as real + Loss(change)) / p as real)
  }

  /** Wilder's averages of gains and losses. */
  function Wilder(vs: seq<real>, p: Period): Averages
    requires |vs| > p
  {
    if |vs| == p + 1 then
      var total := Changes(vs);
      Averages(total.gain / p as real, total.loss / p as real)
    else
      var n := |vs| - 1;
      Smoothed(Wilder(vs[..n], p), vs[n] - vs[n - 1], p)
  }

  function Strength(a: Averages): real
    requires a.gain >= 0.0 && a.loss >= 0.0
  {
    if a.loss == 0.0 then (if a.gain == 0.0 then 50.0 else 100.0)
    else 100.0 - 100.0 / (1.0 + a.gain / a.loss)
  }

  lemma {:induction false} ChangesNonneg(vs: seq<real>)
    ensures Changes(vs).gain >= 0.0 && Changes(vs).loss >= 0.0
  {
    if |vs| >= 2 { ChangesNonneg(vs[..|vs| - 1]); }
  }

  lemma {:induction false} WilderNonneg(vs: seq<real>, p: Period)
    requires |vs| > p
    ensures Wilder(vs, p).gain >= 0.0 && Wilder(vs, p).loss >= 0.0
  {
    if |vs| == p + 1 {
      ChangesNonneg(vs);
      QuotientNonneg(Changes(vs).gain, p as real);
      QuotientNonneg(Changes(vs).loss, p as real);
    } else {
      var n := |vs| - 1;
      WilderNonneg(vs[..n], p);
      SmoothedNonneg(Wilder(vs[..n], p), vs[n] - vs[n - 1], p);
    }
  }

  lemma SmoothedNonneg(a: Averages, change: real, p: Period)
    requires a.gain >= 0.0 && a.loss >= 0.0
    ensures Smoothed(a, change, p).gain >= 0.0 && Smoothed(a, change, p).loss >= 0.0
  {
    var q := (p - 1) as real;
    MulNonneg(a.gain, q);
    MulNonneg(a.loss, q);
    QuotientNonneg(a.gain * q + Gain(change), p as real);
    QuotientNonneg(a.loss * q + Loss(change), p as real);
  }

  function Rsi(vs: seq<real>, p: Period): Option<real> {
    if |vs| <= p then None else
      (WilderNonneg(vs, p);
       Some(Strength(Wilder(vs, p))))
  }

  /** The first loop: the sums of gains and losses over the first changes. */
  method SumChanges(vs: seq<real>, p: Period) returns (gains: real, losses: real)
    requires |vs| > p
    ensures Averages(gains, losses) == Changes(vs[..p + 1])
  {
    gains, losses := 0.0, 0.0;
    var i := 1;
    while i <= p
      invariant 1 <= i <= p + 1 && Averages(gains, losses) == Changes(vs[..i])
    {
      assert vs[..i + 1][..i] == vs[..i];
      var change := vs[i] - vs[i - 1];
      if change >= 0.0 { gains := gains + change; } else { losses := losses - change; }
      i := i + 1;
    }
  }

  function Max(x: real, y: real): real { if x >= y then x else y }

  method SmoothOne(averageGain: real, averageLoss: real, change: real, p: Period) returns (gain: real, loss: real)
    ensures Averages(gain, loss) == Smoothed(Averages(averageGain, averageLoss), change, p)
  {
    gain := (averageGain * (p - 1) as real + Max(change, 0.0)) / p as real;
    loss := (averageLoss * (p - 1) as real + Max(-change, 0.0)) / p as real;
  }

  lemma WilderUnfolds(ws: seq<real>, p: Period)
    requires |ws| > p + 1
    ensures Wilder(ws, p) == Smoothed(Wilder(ws[..|ws| - 1], p), ws[|ws| - 1] - ws[|ws| - 2], p)
  {}

  /** One smoothing step, for the averages found so far. */
  lemma WilderStep(ws: seq<real>, before: seq<real>, p: Period, a: Averages)
    requires |ws| > p + 1 && before == ws[..|ws| - 1] && a == Wilder(before, p)
    ensures Wilder(ws, p) == Smoothed(a, ws[|ws| - 1] - ws[|ws| - 2], p)
  {
    WilderUnfolds(ws, p);
  }

  method FirstAverages(vs: seq<real>, p: Period) returns (averageGain: real, averageLoss: real)
    requires |vs| > p
    ensures Averages(averageGain, averageLoss) == Wilder(vs[..p + 1], p)
  {
    var gains, losses := SumChanges(vs, p);
    averageGain, averageLoss := gains / p as real, losses / p as real;
  }

  method NextAverages(vs: seq<real>, p: Period, i: int, averageGain: real, averageLoss: real)
    returns (gain: real, loss: real)
    requires p < i < |vs| && Averages(averageGain, averageLoss) == Wilder(vs[..i], p)
    ensures Averages(gain, loss) == Wilder(vs[..i + 1], p)
  {
    assert vs[..i + 1][..i] == vs[..i];
    WilderStep(vs[..i + 1], vs[..i], p, Averages(averageGain, averageLoss));
    gain, loss := SmoothOne(averageGain, averageLoss, vs[i] - vs[i - 1], p);
  }

  /** The second loop: one smoothing step per further value. */
  method SmoothChanges(vs: seq<real>, p: Period) returns (averageGain: real, averageLoss: real)
    requires |vs| > p
    ensures Averages(averageGain, averageLoss) == Wilder(vs, p)
  {
    averageGain, averageLoss := FirstAverages(vs, p);
    var i: int := p + 1;
    while i < |vs|
      invariant p + 1 <= i <= |vs| && Averages(averageGain, averageLoss) == Wilder(vs[..i], p)
    {
      averageGain, averageLoss := NextAverages(vs, p, i, averageGain, averageLoss);
      i := i + 1;
    }
    assert vs[..i] == vs;
  }

  method ComputeRsi(vs: seq<real>, p: Period) returns (r: Option<real>)
    ensures r == Rsi(vs, p)
  {
    if |vs| <= p { return None; }
    var averageGain, averageLoss := SmoothChanges(vs, p);
    WilderNonneg(vs, p);
    if averageLoss == 0.0 { return Some(if averageGain == 0.0 then 50.0 else 100.0); }
    QuotientNonneg(averageGain, averageLoss);
    return Some(100.0 - 100.0 / (1.0 + averageGain / averageLoss));
  }

  /** The closed form behind the two branches. */
  lemma StrengthRatio(a: Averages)
    requires a.gain >= 0.0 && a.loss > 0.0
    ensures Strength(a) == 100.0 * a.gain / (a.gain + a.loss)
  {
    var q := a.gain / a.loss;
    QuotientNonneg(a.gain, a.loss);
    var s := 100.0 / (1.0 + q);
    var t := a.gain + a.loss;
    ShareOf(s, q, a.gain, a.loss);
    IsQuotient(100.0 * a.gain, t, 100.0 - s);
  }

  lemma ShareOf(s: real, q: real, g: real, l: real)
    requires s * (1.0 + q) == 100.0 && q * l == g
    ensures (100.0 - s) * (g + l) == 100.0 * g
  {
    assert s * (g + l) == s * (q * l + l) == s * ((1.0 + q) * l) == (s * (1.0 + q)) * l;
  }

  /** The relative strength index lies between 0 and 100. */
  lemma RsiBounds(vs: seq<real>, p: Period)
    requires |vs| > p
    ensures 0.0 <= Rsi(vs, p).value <= 100.0
  {
    WilderNonneg(vs, p);
    var a := Wilder(vs, p);
    if a.loss != 0.0 {
      StrengthRatio(a);
      QuotientBounds(100.0 * a.gain, 0.0, 100.0, a.gain + a.loss);
    }
  }

  function Negated(vs: seq<real>): seq<real> {
    seq(|vs|, i requires 0 <= i < |vs| => -vs[i])
  }

  lemma {:induction false} ChangesNegated(vs: seq<real>)
    ensures Changes(Negated(vs)) == Averages(Changes(vs).loss, Changes(vs).gain)
  {
    if |vs| >= 2 {
      var n := |vs| - 1;
      assert Negated(vs)[..n] == Negated(vs[..n]);
      ChangesNegated(vs[..n]);
    }
  }

  lemma {:induction false} WilderNegated(vs: seq<real>, p: Period)
    requires |vs| > p
    ensures Wilder(Negated(vs), p) == Averages(Wilder(vs, p).loss, Wilder(vs, p).gain)
  {
    if |vs| == p + 1 {
      ChangesNegated(vs);
    } else {
      var n := |vs| - 1;
      assert Negated(vs)[..n] == Negated(vs[..n]);
      WilderNegated(vs[..n], p);
      NextNegated(vs, p, Wilder(vs[..n], p));
    }
  }

  /** One more value, for the averages found so far. */
  lemma NextNegated(vs: seq<real>, p: Period, a: Averages)
    requires |vs| > p + 1 && Wilder(vs[..|vs| - 1], p) == a
    requires Wilder(Negated(vs)[..|vs| - 1], p) == Averages(a.loss, a.gain)
    ensures Wilder(Negated(vs), p) == Averages(Wilder(vs, p).loss, Wilder(vs, p).gain)
  {
    var change := vs[|vs| - 1] - vs[|vs| - 2];
    WilderBy(vs, p, a, change);
    NegatedBy(vs, p, Averages(a.loss, a.gain), change);
    SmoothedNegated(a, change, p);
  }

  lemma NegatedBy(vs: seq<real>, p: Period, a: Averages, change: real)
    requires |vs| > p + 1 && a == Wilder(Negated(vs)[..|vs| - 1], p) && change == vs[|vs| - 1] - vs[|vs| - 2]
    ensures Wilder(Negated(vs), p) == Smoothed(a, -change, p)
  {
    WilderBy(Negated(vs), p, a, -change);
  }

  lemma WilderBy(ws: seq<real>, p: Period, a: Averages, change: real)
    requires |ws| > p + 1 && a == Wilder(ws[..|ws| - 1], p) && change == ws[|ws| - 1] - ws[|ws| - 2]
    ensures Wilder(ws, p) == Smoothed(a, change, p)
  {
    WilderStep(ws, ws[..|ws| - 1], p, a);
  }

  lemma SmoothedNegated(a: Averages, change: real, p: Period)
    ensures Smoothed(Averages(a.loss, a.gain), -change, p)
            == Averages(Smoothed(a, change, p).loss, Smoothed(a, change, p).gain)
  {
    assert Gain(-change) == Loss(change) && Loss(-change) == Gain(change);
  }

  lemma SharesOfHundred(g: real, l: real)
    requires g + l > 0.0
    ensures 100.0 * g / (g + l) + 100.0 * l / (g + l) == 100.0
  {
    var t := g + l;
    QuotientSum(100.0 * g, 100.0 * l, t);
    IsQuotient(100.0 * g + 100.0 * l, t, 100.0);
  }

  /** Mirroring the series mirrors the index. */
  lemma RsiNegated(vs: seq<real>, p: Period)
    requires |vs| > p
    ensures Rsi(Negated(vs), p) == Some(100.0 - Rsi(vs, p).value)
  {
    WilderNegated(vs, p);
    WilderNonneg(vs, p);
    var a := Wilder(vs, p);
    var b := Averages(a.loss, a.gain);
    if a.gain > 0.0 && a.loss > 0.0 {
      StrengthRatio(a);
      StrengthRatio(b);
      SharesOfHundred(a.gain, a.loss);
    } else if a.loss > 0.0 {
      StrengthRatio(a);
    } else if a.gain > 0.0 {
      StrengthRatio(b);
    }
  }
}
