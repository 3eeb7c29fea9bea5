/** The indicator points of a candle series. */
module IndicatorSeries {
  import opened RealFacts
  import opened Indicators

  function Closes(candles: seq<Candle>): (vs: seq<real>)
    ensures |vs| == |candles|
  {
    if candles == [] then [] else Closes(candles[..|candles| - 1]) + [candles[|candles| - 1].close]
  }

  function Volumes(candles: seq<Candle>): (vs: seq<real>)
    ensures |vs| == |candles|
  {
    if candles == [] then [] else Volumes(candles[..|candles| - 1]) + [candles[|candles| - 1].volume]
  }

  function Abs(x: real): real { if x >= 0.0 then x else -x }

  function TrueRange(c: Candle, previousClose: real): real {
    Max(c.high - c.low, Max(Abs(c.high - previousClose), Abs(c.low - previousClose)))
  }

  function Ranges(candles: seq<Candle>): (vs: seq<real>)
    ensures |vs| == if candles == [] then 0 else |candles| - 1
  {
    if |candles| < 2 then []
    else
      var n := |candles| - 1;
      Ranges(candles[..n]) + [TrueRange(candles[n], candles[n - 1].close)]
  }

  function Atr(candles: seq<Candle>, p: Period): Option<real> {
    if |candles| <= p then None else Sma(Ranges(candles), p)
  }

  function Slower(p: Periods): int {
    if p.macdFast >= p.macdSlow then p.macdFast else p.macdSlow
  }

  function MacdOf(closes: seq<real>, p: Periods): Option<real> {
    if |closes| < Slower(p) then None else Some(EmaValue(closes, p.macdFast) - EmaValue(closes, p.macdSlow))
  }

  /** The MACD values so far: one for every close from the slower period on. */
  function Macds(closes: seq<real>, p: Periods): (ms: seq<real>)
    ensures |ms| == if |closes| < Slower(p) then 0 else |closes| - Slower(p) + 1
  {
    if closes == [] then []
    else
      var before := Macds(closes[..|closes| - 1], p);
      var macd := MacdOf(closes, p);
      if macd.None? then before else before + [macd.value]
  }

  function SignalOf(closes: seq<real>, p: Periods): Option<real> {
    Ema(Macds(closes, p), p.macdSignal)
  }

  function Difference(a: Option<real>, b: Option<real>): Option<real> {
    if a.Some? && b.Some? then Some(a.value - b.value) else None
  }

  /** The squared distances from a middle. */
  function Squares(vs: seq<real>, middle: real): (qs: seq<real>)
    ensures |qs| == |vs|
  {
    if vs == [] then []
    else
      var d := vs[|vs| - 1] - middle;
      Squares(vs[..|vs| - 1], middle) + [d * d]
  }

  /** The variance of the last `p` values. */
  function Variance(vs: seq<real>, p: Period): Option<real> {
    var middle := Sma(vs, p);
    if middle.None? then None else Some(Sum(Squares(vs[|vs| - p..], middle.value)) / p as real)
  }

  function VolumeRatio(volume: real, average: Option<real>): Option<real> {
    if average.Some? && average.value > 0.0 then Some(volume / average.value) else None
  }

  function PointOf(candles: seq<Candle>, p: Periods): Point
    requires candles != []
  {
    var closes := Closes(candles);
    var last := candles[|candles| - 1];
    Point(last.timestamp, last.close,
          Ema(closes, p.emaFast), Ema(closes, p.emaSlow), Rsi(closes, p.rsi), Atr(candles, p.atr),
          MacdOf(closes, p), SignalOf(closes, p), Difference(MacdOf(closes, p), SignalOf(closes, p)),
          Sma(closes, p.bb), Variance(closes, p.bb),
          Sma(Volumes(candles), p.volumeSma), VolumeRatio(last.volume, Sma(Volumes(candles), p.volumeSma)),
          if p.emaFast == DEFAULTS.emaFast then Ema(closes, p.emaFast) else None,
          if p.emaSlow == DEFAULTS.emaSlow then Ema(closes, p.emaSlow) else None,
          if p.rsi == DEFAULTS.rsi then Rsi(closes, p.rsi) else None,
          if p.atr == DEFAULTS.atr then Atr(candles, p.atr) else None,
          if p.volumeSma == DEFAULTS.volumeSma then Sma(Volumes(candles), p.volumeSma) else None)
  }

  /** What a function makes of every nonempty prefix of a series. */
  function OfPrefixes(candles: seq<Candle>, f: seq<Candle> -> Point): (ps: seq<Point>)
    ensures |ps| == |candles|
  {
    if candles == [] then [] else OfPrefixes(candles[..|candles| - 1], f) + [f(candles)]
  }

  lemma {:induction false} OfPrefixesAt(candles: seq<Candle>, f: seq<Candle> -> Point, k: nat)
    requires k < |candles|
    ensures OfPrefixes(candles, f)[k] == f(candles[..k + 1])
  {
    var before := candles[..|candles| - 1];
    if k < |before| {
      OfPrefixesAt(before, f, k);
      assert before[..k + 1] == candles[..k + 1];
    } else {
      assert candles[..k + 1] == candles;
    }
  }

  lemma OfPrefixesOfPrefix(candles: seq<Candle>, before: seq<Candle>, f: seq<Candle> -> Point)
    requires before <= candles
    ensures OfPrefixes(before, f) == OfPrefixes(candles, f)[..|before|]
  {
    forall k | 0 <= k < |before| ensures OfPrefixes(before, f)[k] == OfPrefixes(candles, f)[k] {
      OfPrefixesAlike(candles, before, f, k);
    }
  }

  lemma OfPrefixesAlike(candles: seq<Candle>, before: seq<Candle>, f: seq<Candle> -> Point, k: nat)
    requires before <= candles && k < |before|
    ensures OfPrefixes(before, f)[k] == OfPrefixes(candles, f)[k]
  {
    OfPrefixesAt(candles, f, k);
    OfPrefixesAt(before, f, k);
    assert before[..k + 1] == candles[..k + 1];
  }

  const NO_POINT := Point(0, 0.0, None, None, None, None, None, None, None, None, None, None, None,
                          None, None, None, None, None)

  function LastPoint(p: Periods): seq<Candle> -> Point {
    (candles: seq<Candle>) => if candles == [] then NO_POINT else PointOf(candles, p)
  }

  /** Every point is computed from the candles up to its own. */
  function Points(candles: seq<Candle>, p: Periods): (ps: seq<Point>)
    ensures |ps| == |candles|
  {
    OfPrefixes(candles, LastPoint(p))
  }

  lemma PointAt(candles: seq<Candle>, p: Periods, k: nat)
    requires k < |candles|
    ensures Points(candles, p)[k] == PointOf(candles[..k + 1], p)
  {
    OfPrefixesAt(candles, LastPoint(p), k);
  }

  /** No look-ahead: the points of a prefix are the prefix of the points. */
  lemma PointsOfPrefix(candles: seq<Candle>, p: Periods, n: nat)
    requires n <= |candles|
    ensures Points(candles[..n], p) == Points(candles, p)[..n]
  {
    OfPrefixesOfPrefix(candles, candles[..n], LastPoint(p));
  }

  lemma MoreCandles(candles: seq<Candle>, c: Candle, p: Periods)
    ensures Closes(candles + [c]) == Closes(candles) + [c.close]
    ensures Volumes(candles + [c]) == Volumes(candles) + [c.volume]
    ensures Points(candles + [c], p) == Points(candles, p) + [PointOf(candles + [c], p)]
  {
    assert (candles + [c])[..|candles|] == candles;
  }

  lemma OneMoreCandle(candles: seq<Candle>, i: nat, p: Periods)
    requires i < |candles|
    ensures candles[..i] + [candles[i]] == candles[..i + 1]
    ensures Points(candles[..i + 1], p) == Points(candles[..i], p) + [PointOf(candles[..i + 1], p)]
  {
    assert candles[..i] + [candles[i]] == candles[..i + 1];
    MoreCandles(candles[..i], candles[i], p);
  }

  lemma MoreMacds(closes: seq<real>, v: real, p: Periods)
    ensures Macds(closes + [v], p)
            == Macds(closes, p) + if MacdOf(closes + [v], p).Some? then [MacdOf(closes + [v], p).value] else []
  {
    assert (closes + [v])[..|closes|] == closes;
  }

  /** The MACD part of a round, with its two carried values. */
  method NextMacd(closes: seq<real>, v: real, p: Periods, macds: seq<real>, previousSignal: Option<real>)
    returns (macd: Option<real>, macdSignal: Option<real>, allMacds: seq<real>, signal: Option<real>)
    requires macds == Macds(closes, p) && previousSignal == SignalOf(closes, p)
    ensures macd == MacdOf(closes + [v], p) && allMacds == Macds(closes + [v], p)
    ensures macdSignal == Ema(allMacds, p.macdSignal) && signal == SignalOf(closes + [v], p)
  {
    MoreMacds(closes, v, p);
    var macdFast := ComputeEma(closes + [v], p.macdFast);
    var macdSlow := ComputeEma(closes + [v], p.macdSlow);
    macd := if macdFast.Some? && macdSlow.Some? then Some(macdFast.value - macdSlow.value) else None;
    allMacds := macds;
    if macd.Some? { allMacds := allMacds + [macd.value]; }
    macdSignal := ComputeEma(allMacds, p.macdSignal);
    signal := previousSignal;
    if macdSignal.Some? { signal := macdSignal; }
  }

  /** One round of the loop over the candles. */
  method NextPoint(seen: seq<Candle>, candle: Candle, p: Periods, closes: seq<real>, volumes: seq<real>,
                   macds: seq<real>, previousSignal: Option<real>)
    returns (point: Point, allCloses: seq<real>, allVolumes: seq<real>, allMacds: seq<real>, signal: Option<real>)
    requires closes == Closes(seen) && volumes == Volumes(seen) && macds == Macds(closes, p)
    requires previousSignal == SignalOf(closes, p)
    ensures point == PointOf(seen + [candle], p)
    ensures allCloses == Closes(seen + [candle]) && allVolumes == Volumes(seen + [candle])
    ensures allMacds == Macds(allCloses, p) && signal == SignalOf(allCloses, p)
  {
    MoreCandles(seen, candle, p);
    allCloses, allVolumes := closes + [candle.close], volumes + [candle.volume];
    var macd, macdSignal;
    macd, macdSignal, allMacds, signal := NextMacd(closes, candle.close, p, macds, previousSignal);
    var emaFast := ComputeEma(allCloses, p.emaFast);
    var emaSlow := ComputeEma(allCloses, p.emaSlow);
    var rsi := ComputeRsi(allCloses, p.rsi);
    var atr := Atr(seen + [candle], p.atr);
    var volumeSma := Sma(allVolumes, p.volumeSma);
    point := Point(
      candle.timestamp, candle.close, emaFast, emaSlow, rsi, atr,
      macd, if macdSignal.Some? then macdSignal else signal, Difference(macd, macdSignal),
      Sma(allCloses, p.bb), Variance(allCloses, p.bb), volumeSma, VolumeRatio(candle.volume, volumeSma),
      if p.emaFast == DEFAULTS.emaFast then emaFast else None,
      if p.emaSlow == DEFAULTS.emaSlow then emaSlow else None,
      if p.rsi == DEFAULTS.rsi then rsi else None,
      if p.atr == DEFAULTS.atr then atr else None,
      if p.volumeSma == DEFAULTS.volumeSma then volumeSma else None);
  }

  lemma PointsOfPrefixes(candles: seq<Candle>, p: Periods)
    ensures forall k | 0 <= k < |candles| :: Points(candles, p)[k] == PointOf(candles[..k + 1], p)
    ensures forall n | 0 <= n <= |candles| :: Points(candles, p)[..n] == Points(candles[..n], p)
  {
    forall k | 0 <= k < |candles| ensures Points(candles, p)[k] == PointOf(candles[..k + 1], p) {
      PointAt(candles, p, k);
    }
    forall n | 0 <= n <= |candles| ensures Points(candles, p)[..n] == Points(candles[..n], p) {
      PointsOfPrefix(candles, p, n);
    }
  }

  /** No look-ahead: each point is that of the candles up to its own, and the first points of a
      series are the points of its first candles. */
  method CalculateIndicators(candles: seq<Candle>, p: Periods) returns (points: seq<Point>)
    ensures points == Points(candles, p)
    ensures forall k | 0 <= k < |candles| :: points[k] == PointOf(candles[..k + 1], p)
    ensures forall n | 0 <= n <= |candles| :: points[..n] == Points(candles[..n], p)
  {
    points := [];
    var closes, volumes, macds: seq<real> := [], [], [];
    var previousSignal: Option<real> := None;
    var i := 0;
    assert candles[..0] == [];
    while i < |candles|
      invariant 0 <= i <= |candles| && points == Points(candles[..i], p)
      invariant closes == Closes(candles[..i]) && volumes == Volumes(candles[..i])
      invariant macds == Macds(closes, p) && previousSignal == SignalOf(closes, p)
    {
      var point;
      OneMoreCandle(candles, i, p);
      point, closes, volumes, macds, previousSignal :=
        NextPoint(candles[..i], candles[i], p, closes, volumes, macds, previousSignal);
      points := points + [point];
      i := i + 1;
    }
    assert candles[..i] == candles;
    PointsOfPrefixes(candles, p);
  }

  // ---------- bounds ----------

  lemma {:induction false} ClosesAt(candles: seq<Candle>, k: nat)
    requires k < |candles|
    ensures Closes(candles)[k] == candles[k].close
  {
    if k < |candles| - 1 { ClosesAt(candles[..|candles| - 1], k); }
  }

  /** Both averages lie within the range of the closes, so MACD is at most the width of it. */
  lemma MacdBound(closes: seq<real>, p: Periods, lo: real, hi: real)
    requires Within(closes, lo, hi) && MacdOf(closes, p).Some?
    ensures Abs(MacdOf(closes, p).value) <= hi - lo
  {
    EmaWithin(closes, p.macdFast, lo, hi);
    EmaWithin(closes, p.macdSlow, lo, hi);
  }

  lemma {:induction false} SquaresNonneg(vs: seq<real>, middle: real)
    ensures Sum(Squares(vs, middle)) >= 0.0
  {
    if vs != [] {
      var n := |vs| - 1;
      SquaresNonneg(vs[..n], middle);
      SquareNonneg(vs[n] - middle);
      assert Squares(vs, middle)[..n] == Squares(vs[..n], middle);
    }
  }

  /** The middle of the bands lies in the range of the closes, and the bands are around it. */
  lemma BandsWithin(closes: seq<real>, p: Period, lo: real, hi: real)
    requires Within(closes, lo, hi) && |closes| >= p
    ensures lo <= Sma(closes, p).value <= hi
    ensures Variance(closes, p).Some? && Variance(closes, p).value >= 0.0
  {
    var last := closes[|closes| - p..];
    MeanWithin(last, p, lo, hi);
    SquaresNonneg(last, Sma(closes, p).value);
    QuotientNonneg(Sum(Squares(last, Sma(closes, p).value)), p as real);
  }

  /** Averages, index and MACD of every point of a series whose closes stay within bounds. */
  lemma PointWithin(candles: seq<Candle>, p: Periods, lo: real, hi: real, k: nat)
    requires k < |candles| && forall i | 0 <= i < |candles| :: lo <= candles[i].close <= hi
    ensures var q := Points(candles, p)[k];
            && (q.emaFast.Some? ==> lo <= q.emaFast.value <= hi)
            && (q.emaSlow.Some? ==> lo <= q.emaSlow.value <= hi)
            && (q.rsi.Some? ==> 0.0 <= q.rsi.value <= 100.0)
            && (q.macd.Some? ==> Abs(q.macd.value) <= hi - lo)
            && (q.bbMiddle.Some? <==> q.bbVariance.Some?)
            && (q.bbMiddle.Some? ==> lo <= q.bbMiddle.value <= hi && q.bbVariance.value >= 0.0)
  {
    PointAt(candles, p, k);
    var closes := Closes(candles[..k + 1]);
    forall i | 0 <= i < |closes| ensures lo <= closes[i] <= hi { ClosesAt(candles[..k + 1], i); }
    if |closes| >= p.emaFast { EmaWithin(closes, p.emaFast, lo, hi); }
    if |closes| >= p.emaSlow { EmaWithin(closes, p.emaSlow, lo, hi); }
    if |closes| > p.rsi { RsiBounds(closes, p.rsi); }
    if MacdOf(closes, p).Some? { MacdBound(closes, p, lo, hi); }
    if |closes| >= p.bb { BandsWithin(closes, p.bb, lo, hi); }
  }
}
