/** How many candles a replay needs before it can open a trade: the recommended minimum is exact. */
module WarmUp {
  import opened RealFacts
  import opened Indicators
  import opened IndicatorSeries
  import opened Strategies

  function Larger(a: int, b: int): int { if a >= b then a else b }

  /** The number of candles up to the first possible signal. */
  function Threshold(preset: Preset, p: Periods): nat {
    match preset
    case EmaCross => Larger(p.emaFast, p.emaSlow) + 1
    case RsiRevert => p.rsi + 2
    case MacdHist => Larger(p.macdFast, p.macdSlow) + p.macdSignal
  }

  function MinimumCandles(preset: Preset, p: Periods, h: Horizon): nat {
    Threshold(preset, p) + h
  }

  // ---------- necessary ----------

  /** The side taken between two consecutive points. */
  function SideFrom(latest: Point, previous: Point, preset: Preset): Option<Side> {
    match preset
    case EmaCross => SignalSide(EvaluateEmaCross(latest, Some(previous)).event)
    case MacdHist => SignalSide(EvaluateMacdHist(latest, Some(previous)).event)
    case RsiRevert =>
      var before, event := EvaluateRsiRevert(previous).event, EvaluateRsiRevert(latest).event;
      if before == InsufficientData || before == event then None else SignalSide(event)
  }

  lemma SideAtIs(points: seq<Point>, candles: seq<Candle>, preset: Preset, index: nat)
    requires 1 <= index < |candles| == |points|
    ensures SideAt(points, candles, preset, index) == SideFrom(points[index], points[index - 1], preset)
  {
    LastTwo(points, index);
  }

  lemma LastTwo(points: seq<Point>, n: nat)
    requires 0 < n < |points|
    ensures points[..n + 1][|points[..n + 1]| - 1] == points[n]
    ensures points[..n + 1][|points[..n + 1]| - 2] == points[n - 1]
    ensures points[..n][|points[..n]| - 1] == points[n - 1]
  {}

  function FastEma(cs: seq<Candle>, p: Periods): Option<real> { Ema(Closes(cs), p.emaFast) }

  function SlowEma(cs: seq<Candle>, p: Periods): Option<real> { Ema(Closes(cs), p.emaSlow) }

  function Histogram(cs: seq<Candle>, p: Periods): Option<real> {
    Difference(MacdOf(Closes(cs), p), SignalOf(Closes(cs), p))
  }

  /** The aliases for default periods never say anything else. */
  lemma EmaFields(cs: seq<Candle>, p: Periods)
    requires cs != []
    ensures FastOf(PointOf(cs, p)) == FastEma(cs, p) && SlowOf(PointOf(cs, p)) == SlowEma(cs, p)
  {}

  lemma RsiField(cs: seq<Candle>, p: Periods)
    requires cs != []
    ensures OrElse(PointOf(cs, p).rsi, PointOf(cs, p).rsi14) == Rsi(Closes(cs), p.rsi)
  {}

  lemma HistogramField(cs: seq<Candle>, p: Periods)
    requires cs != []
    ensures PointOf(cs, p).macdHistogram == Histogram(cs, p)
  {}

  /** Two consecutive points of a series, by name. */
  lemma TwoPoints(cs: seq<Candle>, p: Periods, n: nat, latest: Point, previous: Point) returns (points: seq<Point>)
    requires 1 <= n < |cs| && latest == PointOf(cs[..n + 1], p) && previous == PointOf(cs[..n], p)
    ensures points == Points(cs, p) && |points| == |cs|
    ensures points[n] == latest && points[n - 1] == previous
  {
    points := Points(cs, p);
    NamedPoint(cs, cs[..n + 1], p, n, latest);
    NamedPoint(cs, cs[..n], p, n - 1, previous);
  }

  lemma NamedPoint(cs: seq<Candle>, prefix: seq<Candle>, p: Periods, n: nat, point: Point)
    requires n < |cs| && prefix == cs[..n + 1] && point == PointOf(prefix, p)
    ensures Points(cs, p)[n] == point
  {
    PointAt(cs, p, n);
  }

  /** What the side depends on: the points of two prefixes of the series. */
  lemma SideOfSeries(candles: seq<Candle>, p: Periods, preset: Preset, index: nat, latest: Point, previous: Point)
    requires 1 <= index < |candles|
    requires latest == PointOf(candles[..index + 1], p) && previous == PointOf(candles[..index], p)
    ensures SideAt(Points(candles, p), candles, preset, index) == SideFrom(latest, previous, preset)
  {
    var points := TwoPoints(candles, p, index, latest, previous);
    SideAtIs(points, candles, preset, index);
  }

  /** The point has the indicators the preset reads. */
  predicate IsDefined(q: Point, preset: Preset) {
    match preset
    case EmaCross => FastOf(q).Some? && SlowOf(q).Some?
    case RsiRevert => OrElse(q.rsi, q.rsi14).Some?
    case MacdHist => q.macdHistogram.Some?
  }

  lemma SideNeeds(latest: Point, previous: Point, preset: Preset)
    requires SideFrom(latest, previous, preset).Some?
    ensures IsDefined(previous, preset)
  {}

  lemma DefinedMeansLong(cs: seq<Candle>, p: Periods, preset: Preset, q: Point)
    requires cs != [] && q == PointOf(cs, p) && IsDefined(q, preset)
    ensures |cs| + 2 > Threshold(preset, p)
  {
    match preset {
      case EmaCross => EmaFields(cs, p);
      case RsiRevert => RsiField(cs, p);
      case MacdHist => HistogramField(cs, p);
    }
  }

  lemma SignalNeedsWarmUp(candles: seq<Candle>, p: Periods, preset: Preset, index: nat)
    requires 1 <= index < |candles|
    requires SideAt(Points(candles, p), candles, preset, index).Some?
    ensures index + 1 >= Threshold(preset, p)
  {
    var latest, previous := PointOf(candles[..index + 1], p), PointOf(candles[..index], p);
    SideOfSeries(candles, p, preset, index, latest, previous);
    SideNeeds(latest, previous, preset);
    DefinedMeansLong(candles[..index], p, preset, previous);
  }

  lemma {:induction false} TradesNeedSignals(points: seq<Point>, candles: seq<Candle>, preset: Preset, h: Horizon,
      k: nat)
    requires |points| == |candles| && (k <= 1 || k - 1 + h < |candles|)
    requires TradesBefore(points, candles, preset, h, k) != []
    ensures exists index :: 1 <= index < k && SideAt(points, candles, preset, index).Some?
  {
    if TradesBefore(points, candles, preset, h, k - 1) != [] {
      TradesNeedSignals(points, candles, preset, h, k - 1);
    } else {
      assert SideAt(points, candles, preset, k - 1).Some?;
    }
  }

  /** With fewer candles than the minimum no replay of any series opens a trade. */
  lemma NoTradeBeforeWarmUp(candles: seq<Candle>, p: Periods, preset: Preset, h: Horizon)
    requires |candles| < MinimumCandles(preset, p, h)
    ensures Replay(Points(candles, p), candles, preset, h) == []
  {
    var points := Points(candles, p);
    if Replay(points, candles, preset, h) != [] {
      TradesNeedSignals(points, candles, preset, h, SignalCount(|candles|, h));
      var index :| 1 <= index < SignalCount(|candles|, h) && SideAt(points, candles, preset, index).Some?;
      SignalNeedsWarmUp(candles, p, preset, index);
    }
  }

  // ---------- series that move once ----------

  function Flat(price: real): Candle {
    Candle(0, 1.0, price, price, price, 1.0)
  }

  /** `n` candles that close at `before` and then `m` that close at `after`. */
  function Moving(before: real, n: nat, after: real, m: nat): (cs: seq<Candle>)
    ensures |cs| == n + m
    ensures forall i | 0 <= i < n + m :: cs[i] == if i < n then Flat(before) else Flat(after)
  {
    seq(n + m, i => if i < n then Flat(before) else Flat(after))
  }

  ghost predicate AllEqual(vs: seq<real>, c: real) {
    forall i | 0 <= i < |vs| :: vs[i] == c
  }

  lemma {:induction false} SumOfEqual(vs: seq<real>, c: real)
    requires AllEqual(vs, c)
    ensures Sum(vs) == c * |vs| as real
  {
    if vs != [] {
      var n := |vs| - 1;
      SumOfEqual(vs[..n], c);
      assert c * (n + 1) as real == c * n as real + c;
    }
  }

  lemma {:induction false} EmaOfEqual(vs: seq<real>, p: Period, c: real)
    requires AllEqual(vs, c) && |vs| >= p
    ensures EmaValue(vs, p) == c
  {
    if |vs| == p {
      SumOfEqual(vs, c);
      IsQuotient(Sum(vs), p as real, c);
    } else {
      EmaOfEqual(vs[..|vs| - 1], p, c);
    }
  }

  lemma EmaUnfolds(ws: seq<real>, p: Period)
    requires |ws| > p
    ensures EmaValue(ws, p) == EmaStep(ws[|ws| - 1], EmaValue(ws[..|ws| - 1], p), p)
  {}

  /** The average after one further value. */
  lemma EmaAfter(vs: seq<real>, p: Period, c: real, v: real)
    requires AllEqual(vs, c) && |vs| >= p
    ensures EmaValue(vs + [v], p) == EmaStep(v, c, p)
  {
    EmaOfEqual(vs, p, c);
    EmaUnfolds(vs + [v], p);
    assert (vs + [v])[..|vs|] == vs;
  }

  lemma ClosesOfMove(before: real, n: nat, after: real, m: nat)
    requires m > 0
    ensures var cs := Moving(before, n, after, m);
            && AllEqual(Closes(cs[..n]), before)
            && Closes(cs[..n + 1]) == Closes(cs[..n]) + [after]
  {
    var cs := Moving(before, n, after, m);
    forall i | 0 <= i < n ensures Closes(cs[..n])[i] == before { ClosesAt(cs[..n], i); }
    assert cs[..n + 1][..n] == cs[..n];
  }

  lemma MultiplierOrder(a: Period, b: Period)
    requires a < b
    ensures Multiplier(a) > Multiplier(b)
  {
    QuotientOrder(2.0, (a + 1) as real, (b + 1) as real);
  }

  // ---------- sufficient ----------

  /** Two equal periods never differ, so they never cross. */
  predicate CanSignal(preset: Preset, p: Periods) {
    match preset
    case EmaCross => p.emaFast != p.emaSlow
    case RsiRevert => true
    case MacdHist => p.macdFast != p.macdSlow
  }

  function Witness(preset: Preset, p: Periods, h: Horizon): seq<Candle> {
    var n := Threshold(preset, p) - 1;
    if preset == RsiRevert then Moving(2.0, n, 1.0, h + 1) else Moving(1.0, n, 2.0, h + 1)
  }

  /** Averages that were equal and have parted signal a crossing. */
  lemma CrossSignals(latest: Point, previous: Point)
    requires FastOf(latest).Some? && SlowOf(latest).Some? && FastOf(latest).value != SlowOf(latest).value
    requires FastOf(previous).Some? && FastOf(previous) == SlowOf(previous)
    ensures SideFrom(latest, previous, EmaCross).Some?
  {}

  lemma HistogramSignals(latest: Point, previous: Point)
    requires latest.macdHistogram.Some? && latest.macdHistogram.value != 0.0
    requires previous.macdHistogram == Some(0.0)
    ensures SideFrom(latest, previous, MacdHist).Some?
  {}

  lemma EmaMoves(vs: seq<real>, p: Periods) returns (fast: real, slow: real)
    requires AllEqual(vs, 1.0) && |vs| == Larger(p.emaFast, p.emaSlow) && p.emaFast != p.emaSlow
    ensures Ema(vs, p.emaFast) == Some(1.0) && Ema(vs, p.emaSlow) == Some(1.0)
    ensures Ema(vs + [2.0], p.emaFast) == Some(fast) && Ema(vs + [2.0], p.emaSlow) == Some(slow)
    ensures fast != slow
  {
    fast, slow := EmaStep(2.0, 1.0, p.emaFast), EmaStep(2.0, 1.0, p.emaSlow);
    EmaOfEqual(vs, p.emaFast, 1.0);
    EmaOfEqual(vs, p.emaSlow, 1.0);
    EmaAfter(vs, p.emaFast, 1.0, 2.0);
    EmaAfter(vs, p.emaSlow, 1.0, 2.0);
    if p.emaFast < p.emaSlow { MultiplierOrder(p.emaFast, p.emaSlow); } else { MultiplierOrder(p.emaSlow, p.emaFast); }
  }

  lemma EmaSideAtMove(before: seq<Candle>, after: seq<Candle>, p: Periods, latest: Point, previous: Point)
    requires before != [] && after != [] && latest == PointOf(after, p) && previous == PointOf(before, p)
    requires AllEqual(Closes(before), 1.0) && Closes(after) == Closes(before) + [2.0]
    requires |before| == Larger(p.emaFast, p.emaSlow) && p.emaFast != p.emaSlow
    ensures SideFrom(latest, previous, EmaCross).Some?
  {
    EmaFields(before, p);
    EmaFields(after, p);
    var fast, slow := EmaMoves(Closes(before), p);
    assert FastOf(latest) == Some(fast) && SlowOf(latest) == Some(slow);
    CrossSignals(latest, previous);
  }

  lemma {:induction false} NoChanges(vs: seq<real>, c: real)
    requires AllEqual(vs, c)
    ensures Changes(vs) == Averages(0.0, 0.0)
  {
    if |vs| >= 2 { NoChanges(vs[..|vs| - 1], c); }
  }

  lemma RsiBeforeDrop(vs: seq<real>, p: Period, c: real)
    requires AllEqual(vs, c) && |vs| == p + 1
    ensures Wilder(vs, p) == Averages(0.0, 0.0) && Rsi(vs, p) == Some(50.0)
  {
    NoChanges(vs, c);
    IsQuotient(0.0, p as real, 0.0);
    WilderNonneg(vs, p);
  }

  lemma RsiAfterDrop(vs: seq<real>, p: Period, c: real, v: real)
    requires AllEqual(vs, c) && |vs| == p + 1 && v < c
    ensures Rsi(vs + [v], p) == Some(0.0)
  {
    RsiBeforeDrop(vs, p, c);
    WilderUnfolds(vs + [v], p);
    assert (vs + [v])[..|vs|] == vs;
    var a := Wilder(vs + [v], p);
    assert a == Smoothed(Averages(0.0, 0.0), v - c, p);
    IsQuotient(0.0, p as real, 0.0);
    assert a.gain == 0.0;
    assert a.loss * p as real == c - v;
    WilderNonneg(vs + [v], p);
    assert a.loss > 0.0;
    IsQuotient(0.0, a.loss, 0.0);
  }

  lemma DropSignals(latest: Point, previous: Point)
    requires OrElse(latest.rsi, latest.rsi14) == Some(0.0) && OrElse(previous.rsi, previous.rsi14) == Some(50.0)
    ensures SideFrom(latest, previous, RsiRevert) == Some(Long)
  {}

  lemma RsiSideAtMove(before: seq<Candle>, after: seq<Candle>, p: Periods, latest: Point, previous: Point)
    requires before != [] && after != [] && latest == PointOf(after, p) && previous == PointOf(before, p)
    requires AllEqual(Closes(before), 2.0) && Closes(after) == Closes(before) + [1.0]
    requires |before| == p.rsi + 1
    ensures SideFrom(latest, previous, RsiRevert).Some?
  {
    RsiField(before, p);
    RsiField(after, p);
    RsiBeforeDrop(Closes(before), p.rsi, 2.0);
    RsiAfterDrop(Closes(before), p.rsi, 2.0, 1.0);
    DropSignals(latest, previous);
  }

  lemma {:induction false} MacdsOfEqual(closes: seq<real>, p: Periods, c: real)
    requires AllEqual(closes, c)
    ensures AllEqual(Macds(closes, p), 0.0)
  {
    if closes != [] {
      MacdsOfEqual(closes[..|closes| - 1], p, c);
      if |closes| >= Slower(p) {
        EmaOfEqual(closes, p.macdFast, c);
        EmaOfEqual(closes, p.macdSlow, c);
      }
    }
  }

  lemma MacdBefore(closes: seq<real>, p: Periods, c: real)
    requires AllEqual(closes, c) && |closes| >= Slower(p)
    ensures MacdOf(closes, p) == Some(0.0)
  {
    EmaOfEqual(closes, p.macdFast, c);
    EmaOfEqual(closes, p.macdSlow, c);
  }

  lemma MacdAfter(closes: seq<real>, p: Periods)
    requires AllEqual(closes, 1.0) && |closes| >= Slower(p)
    ensures MacdOf(closes + [2.0], p) == Some(Multiplier(p.macdFast) - Multiplier(p.macdSlow))
  {
    EmaAfter(closes, p.macdFast, 1.0, 2.0);
    EmaAfter(closes, p.macdSlow, 1.0, 2.0);
  }

  lemma SignalBefore(closes: seq<real>, p: Periods, c: real)
    requires AllEqual(closes, c) && |closes| == Slower(p) + p.macdSignal - 1
    ensures SignalOf(closes, p) == Some(0.0)
  {
    MacdsOfEqual(closes, p, c);
    EmaOfEqual(Macds(closes, p), p.macdSignal, 0.0);
  }

  lemma SignalAfter(closes: seq<real>, p: Periods, c: real, v: real, d: real)
    requires AllEqual(closes, c) && |closes| == Slower(p) + p.macdSignal - 1
    requires MacdOf(closes + [v], p) == Some(d)
    ensures SignalOf(closes + [v], p) == Some(EmaStep(d, 0.0, p.macdSignal))
  {
    MacdsOfEqual(closes, p, c);
    MoreMacds(closes, v, p);
    var macds := Macds(closes, p);
    assert Macds(closes + [v], p) == macds + [d];
    EmaAfter(macds, p.macdSignal, 0.0, d);
    assert SignalOf(closes + [v], p) == Some(EmaValue(macds + [d], p.macdSignal));
  }

  lemma PartOfMove(d: real, p: Period)
    requires d != 0.0
    ensures d - EmaStep(d, 0.0, p) != 0.0
  {
    var m := Multiplier(p);
    Factor(d, m);
  }

  lemma Factor(d: real, m: real)
    requires d != 0.0 && m != 1.0
    ensures d - ((d - 0.0) * m + 0.0) != 0.0
  {
    if d * m == d { Cancel(m, 1.0, d); }
  }

  lemma MacdMoves(closes: seq<real>, p: Periods)
    requires AllEqual(closes, 1.0) && |closes| == Slower(p) + p.macdSignal - 1 && p.macdFast != p.macdSlow
    ensures Difference(MacdOf(closes, p), SignalOf(closes, p)) == Some(0.0)
    ensures var after := Difference(MacdOf(closes + [2.0], p), SignalOf(closes + [2.0], p));
            after.Some? && after.value != 0.0
  {
    MacdBefore(closes, p, 1.0);
    SignalBefore(closes, p, 1.0);
    MacdAfter(closes, p);
    var d := Multiplier(p.macdFast) - Multiplier(p.macdSlow);
    SignalAfter(closes, p, 1.0, 2.0, d);
    if p.macdFast < p.macdSlow { MultiplierOrder(p.macdFast, p.macdSlow); }
        else { MultiplierOrder(p.macdSlow, p.macdFast); }
    PartOfMove(d, p.macdSignal);
  }

  lemma MacdSideAtMove(before: seq<Candle>, after: seq<Candle>, p: Periods, latest: Point, previous: Point)
    requires before != [] && after != [] && latest == PointOf(after, p) && previous == PointOf(before, p)
    requires AllEqual(Closes(before), 1.0) && Closes(after) == Closes(before) + [2.0]
    requires |before| == Slower(p) + p.macdSignal - 1 && p.macdFast != p.macdSlow
    ensures SideFrom(latest, previous, MacdHist).Some?
  {
    HistogramField(before, p);
    HistogramField(after, p);
    MacdMoves(Closes(before), p);
    HistogramSignals(latest, previous);
  }

  /** A signal with a positive entry opens a trade unless an earlier one is still open. */
  lemma {:induction false} SignalOpensTrade(points: seq<Point>, candles: seq<Candle>, preset: Preset, h: Horizon,
                                            index: nat, k: nat)
    requires |points| == |candles| && 1 <= index < k && k - 1 + h < |candles|
    requires TradeAt(points, candles, preset, h, index).Some?
    ensures TradesBefore(points, candles, preset, h, k) != []
  {
    if index < k - 1 { SignalOpensTrade(points, candles, preset, h, index, k - 1); }
  }

  /** A side at the last index that leaves room for the horizon. */
  lemma SideOpensTrade(points: seq<Point>, candles: seq<Candle>, preset: Preset, h: Horizon, index: nat)
    requires |points| == |candles| && 1 <= index && index + h + 1 == |candles| && candles[index + 1].open > 0.0
    requires SideFrom(points[index], points[index - 1], preset).Some?
    ensures Replay(points, candles, preset, h) != []
  {
    SideAtIs(points, candles, preset, index);
    SignalOpensTrade(points, candles, preset, h, index, index + 1);
  }

  lemma WitnessShape(preset: Preset, p: Periods, h: Horizon)
    ensures |Witness(preset, p, h)| == MinimumCandles(preset, p, h)
    ensures Witness(preset, p, h)[Threshold(preset, p)].open == 1.0
  {}

  /** The whole argument for one series, without its definition. */
  lemma MoveOpensTrade(cs: seq<Candle>, p: Periods, preset: Preset, h: Horizon, n: nat, latest: Point, previous: Point)
    requires 1 <= n && |cs| == n + h + 1 && cs[n + 1].open > 0.0
    requires latest == PointOf(cs[..n + 1], p) && previous == PointOf(cs[..n], p)
    requires SideFrom(latest, previous, preset).Some?
    ensures Replay(Points(cs, p), cs, preset, h) != []
  {
    var points := TwoPoints(cs, p, n, latest, previous);
    SideOpensTrade(points, cs, preset, h, n);
  }

  lemma ClosesOfWitness(preset: Preset, p: Periods, h: Horizon)
    ensures var cs, n := Witness(preset, p, h), Threshold(preset, p) - 1;
            && AllEqual(Closes(cs[..n]), if preset == RsiRevert then 2.0 else 1.0)
            && Closes(cs[..n + 1]) == Closes(cs[..n]) + [if preset == RsiRevert then 1.0 else 2.0]
  {
    var n := Threshold(preset, p) - 1;
    if preset == RsiRevert { ClosesOfMove(2.0, n, 1.0, h + 1); } else { ClosesOfMove(1.0, n, 2.0, h + 1); }
  }

  lemma MovePoints(preset: Preset, p: Periods, h: Horizon) returns (latest: Point, previous: Point)
    requires CanSignal(preset, p)
    ensures latest == PointOf(Witness(preset, p, h)[..Threshold(preset, p)], p)
    ensures previous == PointOf(Witness(preset, p, h)[..Threshold(preset, p) - 1], p)
    ensures SideFrom(latest, previous, preset).Some?
  {
    var cs, n := Witness(preset, p, h), Threshold(preset, p) - 1;
    var before, after := cs[..n], cs[..n + 1];
    latest, previous := PointOf(after, p), PointOf(before, p);
    ClosesOfWitness(preset, p, h);
    match preset {
      case EmaCross => EmaSideAtMove(before, after, p, latest, previous);
      case RsiRevert => RsiSideAtMove(before, after, p, latest, previous);
      case MacdHist => MacdSideAtMove(before, after, p, latest, previous);
    }
  }

  /** With exactly the minimum some series opens a trade, if the preset can signal at all. */
  lemma TradeAtWarmUp(preset: Preset, p: Periods, h: Horizon)
    requires CanSignal(preset, p)
    ensures var cs := Witness(preset, p, h);
            |cs| == MinimumCandles(preset, p, h) && Replay(Points(cs, p), cs, preset, h) != []
  {
    WitnessShape(preset, p, h);
    var latest, previous := MovePoints(preset, p, h);
    MoveOpensTrade(Witness(preset, p, h), p, preset, h, Threshold(preset, p) - 1, latest, previous);
  }

  lemma {:induction false} MacdsOfSamePeriods(closes: seq<real>, p: Periods)
    requires p.macdFast == p.macdSlow
    ensures AllEqual(Macds(closes, p), 0.0)
  {
    if closes != [] { MacdsOfSamePeriods(closes[..|closes| - 1], p); }
  }

  lemma NoSideOfSamePeriods(cs: seq<Candle>, latest: Point, previous: Point, p: Periods, preset: Preset)
    requires !CanSignal(preset, p) && cs != [] && latest == PointOf(cs, p)
    ensures SideFrom(latest, previous, preset).None?
  {
    if preset == EmaCross {
      EmaFields(cs, p);
      EqualNoSide(latest, previous);
    }
    if preset == MacdHist {
      HistogramField(cs, p);
      LevelHistogram(cs, p);
      LevelNoSide(latest, previous);
    }
  }

  lemma EqualNoSide(latest: Point, previous: Point)
    requires FastOf(latest) == SlowOf(latest)
    ensures SideFrom(latest, previous, EmaCross).None?
  {}

  lemma LevelNoSide(latest: Point, previous: Point)
    requires latest.macdHistogram.Some? ==> latest.macdHistogram.value == 0.0
    ensures SideFrom(latest, previous, MacdHist).None?
  {}

  lemma LevelHistogram(cs: seq<Candle>, p: Periods)
    requires p.macdFast == p.macdSlow
    ensures Histogram(cs, p).Some? ==> Histogram(cs, p).value == 0.0
  {
    var macds := Macds(Closes(cs), p);
    MacdsOfSamePeriods(Closes(cs), p);
    if |macds| >= p.macdSignal { EmaOfEqual(macds, p.macdSignal, 0.0); }
  }

  lemma NoSignalOfSamePeriods(candles: seq<Candle>, p: Periods, preset: Preset, index: nat)
    requires !CanSignal(preset, p) && 1 <= index < |candles|
    ensures SideAt(Points(candles, p), candles, preset, index).None?
  {
    var previous := PointOf(candles[..index], p);
    SideOfSeries(candles, p, preset, index, PointOf(candles[..index + 1], p), previous);
    NoSideOfSamePeriods(candles[..index + 1], PointOf(candles[..index + 1], p), previous, p, preset);
  }

  /** A preset that cannot signal never opens a trade on any series. */
  lemma NoTradeEver(candles: seq<Candle>, p: Periods, preset: Preset, h: Horizon)
    requires !CanSignal(preset, p)
    ensures Replay(Points(candles, p), candles, preset, h) == []
  {
    var points := Points(candles, p);
    if Replay(points, candles, preset, h) != [] {
      TradesNeedSignals(points, candles, preset, h, SignalCount(|candles|, h));
      var index :| 1 <= index < SignalCount(|candles|, h) && SideAt(points, candles, preset, index).Some?;
      NoSignalOfSamePeriods(candles, p, preset, index);
    }
  }
}
