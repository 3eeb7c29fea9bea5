/** The strategy presets and the replay of a rule over closed candles. */
module Strategies {
  import opened RealFacts
  import opened Indicators
  import opened IndicatorSeries

  datatype Preset = EmaCross | RsiRevert | MacdHist

  datatype Bias = Bullish | Bearish | Neutral | NoBias

  datatype Signal =
    | CrossUp | CrossDown | Above | Below | Equal
    | Oversold | Overbought | MidRange
    | InsufficientData

  /** The confidence is medium exactly for crossings and extremes. */
  datatype Evaluation = Evaluation(bias: Bias, medium: bool, event: Signal)

  datatype Side = Long | Short

  datatype Trade = Trade(
    signalIndex: nat, side: Side, event: Signal, entryIndex: nat, exitIndex: nat,
    entry: real, exit: real, returnPct: real)

  const INSUFFICIENT := Evaluation(NoBias, false, InsufficientData)

  function OrElse(a: Option<real>, b: Option<real>): Option<real> {
    if a.Some? then a else b
  }

  function FastOf(q: Point): Option<real> { OrElse(q.emaFast, q.ema20) }

  function SlowOf(q: Point): Option<real> { OrElse(q.emaSlow, q.ema50) }

  function EvaluateEmaCross(latest: Point, previous: Option<Point>): Evaluation {
    var fast, slow := FastOf(latest), SlowOf(latest);
    if fast.None? || slow.None? then INSUFFICIENT
    else
      var prevFast := if previous.Some? then FastOf(previous.value) else None;
      var prevSlow := if previous.Some? then SlowOf(previous.value) else None;
      var known := prevFast.Some? && prevSlow.Some?;
      if fast.value > slow.value then
        if known && prevFast.value <= prevSlow.value then Evaluation(Bullish, true, CrossUp)
        else Evaluation(Bullish, false, Above)
      else if fast.value < slow.value then
        if known && prevFast.value >= prevSlow.value then Evaluation(Bearish, true, CrossDown)
        else Evaluation(Bearish, false, Below)
      else Evaluation(Neutral, false, Equal)
  }

  function EvaluateRsiRevert(latest: Point): Evaluation {
    var value := OrElse(latest.rsi, latest.rsi14);
    if value.None? then INSUFFICIENT
    else if value.value < 30.0 then Evaluation(Bullish, true, Oversold)
    else if value.value > 70.0 then Evaluation(Bearish, true, Overbought)
    else Evaluation(Neutral, false, MidRange)
  }

  function EvaluateMacdHist(latest: Point, previous: Option<Point>): Evaluation {
    var hist := latest.macdHistogram;
    if hist.None? then INSUFFICIENT
    else
      var prev := if previous.Some? then previous.value.macdHistogram else None;
      if hist.value > 0.0 then
        if prev.Some? && prev.value <= 0.0 then Evaluation(Bullish, true, CrossUp)
            else Evaluation(Bullish, false, Above)
      else if hist.value < 0.0 then
        if prev.Some? && prev.value >= 0.0 then Evaluation(Bearish, true, CrossDown)
            else Evaluation(Bearish, false, Below)
      else Evaluation(Neutral, false, Equal)
  }

  /** Without a candle there is no recent range and nothing is evaluated. */
  function EvaluateStrategy(points: seq<Point>, candles: seq<Candle>, preset: Preset): Evaluation {
    if candles == [] || points == [] then INSUFFICIENT
    else
      var latest := points[|points| - 1];
      var previous := if |points| >= 2 then Some(points[|points| - 2]) else None;
      match preset
      case EmaCross => EvaluateEmaCross(latest, previous)
      case RsiRevert => EvaluateRsiRevert(latest)
      case MacdHist => EvaluateMacdHist(latest, previous)
  }

  function SignalSide(event: Signal): Option<Side> {
    match event
    case CrossUp => Some(Long)
    case Oversold => Some(Long)
    case CrossDown => Some(Short)
    case Overbought => Some(Short)
    case _ => None
  }

  /** The side a replay takes at an index: extremes count only when they begin. */
  function SideAt(points: seq<Point>, candles: seq<Candle>, preset: Preset, index: nat): Option<Side>
    requires 1 <= index < |candles| == |points|
  {
    var event := EvaluateStrategy(points[..index + 1], candles[..index + 1], preset).event;
    var before := EvaluateStrategy(points[..index], candles[..index], preset).event;
    if preset == RsiRevert && (before == InsufficientData || before == event) then None else SignalSide(event)
  }

  function ReturnPct(side: Side, entry: real, exit: real): real
    requires entry > 0.0
  {
    (exit - entry) / entry * if side == Long then 100.0 else -100.0
  }

  type Horizon = h: int | 1 <= h <= 20 witness 1

  /** The trade that a signal at an index opens, if nothing blocks it. */
  function TradeAt(points: seq<Point>, candles: seq<Candle>, preset: Preset, h: Horizon, index: nat): Option<Trade>
    requires 1 <= index && index + h < |candles| == |points|
  {
    var side := SideAt(points, candles, preset, index);
    var entry, exit := candles[index + 1].open, candles[index + h].close;
    if side.None? || entry <= 0.0 then None
    else Some(Trade(index, side.value, EvaluateStrategy(points[..index + 1], candles[..index + 1], preset).event,
                    index + 1, index + h, entry, exit, ReturnPct(side.value, entry, exit)))
  }

  function NextSignalIndex(trades: seq<Trade>, h: Horizon): nat {
    if trades == [] then 1 else trades[|trades| - 1].signalIndex + h
  }

  /** The trades opened by signals before `k`. */
  function TradesBefore(points: seq<Point>, candles: seq<Candle>, preset: Preset, h: Horizon, k: nat): seq<Trade>
    requires |points| == |candles| && (k <= 1 || k - 1 + h < |candles|)
  {
    if k <= 1 then []
    else
      var earlier := TradesBefore(points, candles, preset, h, k - 1);
      if k - 1 < NextSignalIndex(earlier, h) then earlier
      else
        var trade := TradeAt(points, candles, preset, h, k - 1);
        if trade.None? then earlier else earlier + [trade.value]
  }

  function SignalCount(n: nat, h: Horizon): nat {
    if n > h then n - h else 0
  }

  function Replay(points: seq<Point>, candles: seq<Candle>, preset: Preset, h: Horizon): seq<Trade>
    requires |points| == |candles|
  {
    TradesBefore(points, candles, preset, h, SignalCount(|candles|, h))
  }

  datatype ReplayResult = Trades(trades: seq<Trade>) | InvalidHorizon | LengthMismatch

  /** The replay loop with its two argument errors. */
  method SimulateRule(points: seq<Point>, candles: seq<Candle>, preset: Preset, horizon: int) returns (r: ReplayResult)
    ensures !(1 <= horizon <= 20) ==> r == InvalidHorizon
    ensures 1 <= horizon <= 20 && |points| != |candles| ==> r == LengthMismatch
    ensures 1 <= horizon <= 20 && |points| == |candles| ==> r == Trades(Replay(points, candles, preset, horizon))
  {
    if horizon < 1 || horizon > 20 { return InvalidHorizon; }
    if |points| != |candles| { return LengthMismatch; }
    var h: Horizon := horizon;
    var trades: seq<Trade> := [];
    var nextSignalIndex := 1;
    var lastSignalIndex := |candles| - h - 1;
    var index := 1;
    while index <= lastSignalIndex
      invariant 1 <= index && (index <= lastSignalIndex + 1 || index == 1)
      invariant trades == TradesBefore(points, candles, preset, h, index)
      invariant nextSignalIndex == NextSignalIndex(trades, h)
    {
      if index >= nextSignalIndex {
        var trade := OpenTrade(points, candles, preset, h, index);
        if trade.Some? {
          trades := trades + [trade.value];
          nextSignalIndex := index + h;
        }
      }
      index := index + 1;
    }
    return Trades(trades);
  }

  /** The rest of a round of the replay loop: evaluate both prefixes and open a trade. */
  method OpenTrade(points: seq<Point>, candles: seq<Candle>, preset: Preset, h: Horizon, index: nat)
    returns (trade: Option<Trade>)
    requires 1 <= index && index + h < |candles| == |points|
    ensures trade == TradeAt(points, candles, preset, h, index)
    ensures trade.Some? ==> trade.value.signalIndex == index
  {
    var evaluation := EvaluateStrategy(points[..index + 1], candles[..index + 1], preset);
    var previous := EvaluateStrategy(points[..index], candles[..index], preset);
    var side := SignalSide(evaluation.event);
    if side.None? { return None; }
    if preset == RsiRevert && (previous.event == InsufficientData || previous.event == evaluation.event) {
      return None;
    }
    var entry, exit := candles[index + 1].open, candles[index + h].close;
    if entry <= 0.0 { return None; }
    return Some(Trade(index, side.value, evaluation.event, index + 1, index + h, entry, exit,
                      ReturnPct(side.value, entry, exit)));
  }

  // ---------- trades do not overlap ----------

  /** Entries follow the signal by one candle, exits by the horizon, and signals are at least a
      horizon apart. */
  ghost predicate Spaced(trades: seq<Trade>, h: Horizon, k: nat) {
    && (forall i | 0 <= i < |trades| ::
          && 1 <= trades[i].signalIndex < k
          && trades[i].entryIndex == trades[i].signalIndex + 1 && trades[i].exitIndex == trades[i].signalIndex + h)
    && forall i, j | 0 <= i < j < |trades| :: trades[i].signalIndex + h <= trades[j].signalIndex
  }

  lemma {:induction false} ReplaySpaced(points: seq<Point>, candles: seq<Candle>, preset: Preset, h: Horizon, k: nat)
    requires |points| == |candles| && (k <= 1 || k - 1 + h < |candles|)
    ensures Spaced(TradesBefore(points, candles, preset, h, k), h, if k == 0 then 1 else k)
  {
    if k > 1 {
      var earlier := TradesBefore(points, candles, preset, h, k - 1);
      ReplaySpaced(points, candles, preset, h, k - 1);
      SpacedWider(earlier, h, k - 1);
      if k - 1 >= NextSignalIndex(earlier, h) {
        var trade := TradeAt(points, candles, preset, h, k - 1);
        if trade.Some? {
          TradeAtShape(points, candles, preset, h, k - 1, trade.value);
          SpacedMore(earlier, trade.value, h, k - 1);
        }
      }
    }
  }

  lemma TradeAtShape(points: seq<Point>, candles: seq<Candle>, preset: Preset, h: Horizon, index: nat, t: Trade)
    requires 1 <= index && index + h < |candles| == |points|
    requires TradeAt(points, candles, preset, h, index) == Some(t)
    ensures t.signalIndex == index && t.entryIndex == index + 1 && t.exitIndex == index + h
  {}

  lemma SpacedWider(trades: seq<Trade>, h: Horizon, k: nat)
    requires Spaced(trades, h, k)
    ensures Spaced(trades, h, k + 1)
  {}

  /** One more trade, opened by the signal at `k`. */
  lemma SpacedMore(trades: seq<Trade>, t: Trade, h: Horizon, k: nat)
    requires Spaced(trades, h, k) && k >= 1 && k >= NextSignalIndex(trades, h)
    requires t.signalIndex == k && t.entryIndex == k + 1 && t.exitIndex == k + h
    ensures Spaced(trades + [t], h, k + 1)
  {
    var more := trades + [t];
    forall i, j | 0 <= i < j < |more| ensures more[i].signalIndex + h <= more[j].signalIndex {
      if j == |trades| { LastSignal(trades, h, k, i); }
    }
  }

  lemma LastSignal(trades: seq<Trade>, h: Horizon, k: nat, i: nat)
    requires Spaced(trades, h, k) && i < |trades|
    ensures trades[i].signalIndex <= trades[|trades| - 1].signalIndex
  {}

  lemma {:induction false} LateSignal(trades: seq<Trade>, h: Horizon, k: nat, j: nat)
    requires Spaced(trades, h, k) && j < |trades|
    ensures trades[j].signalIndex >= 1 + j * h
  {
    if j > 0 {
      LateSignal(trades, h, k, j - 1);
      Multiple(j, h);
    }
  }

  /** Trade intervals are pairwise disjoint, in order, and within the series, which is therefore
      long enough to hold them. */
  lemma NoOverlap(points: seq<Point>, candles: seq<Candle>, preset: Preset, h: Horizon)
    requires |points| == |candles|
    ensures var trades := Replay(points, candles, preset, h);
            && (forall i, j | 0 <= i < j < |trades| :: trades[i].exitIndex < trades[j].entryIndex)
            && (forall i | 0 <= i < |trades| :: trades[i].entryIndex <= trades[i].exitIndex < |candles|)
            && (trades != [] ==> |trades| * h + 2 <= |candles|)
  {
    var k := SignalCount(|candles|, h);
    ReplaySpaced(points, candles, preset, h, k);
    SpacedApart(Replay(points, candles, preset, h), |candles|, h, if k == 0 then 1 else k);
  }

  /** Spaced trades whose signals leave room for the horizon. */
  lemma SpacedApart(trades: seq<Trade>, n: nat, h: Horizon, k: nat)
    requires Spaced(trades, h, k) && k <= if n > h + 1 then n - h else 1
    ensures forall i, j | 0 <= i < j < |trades| :: trades[i].exitIndex < trades[j].entryIndex
    ensures forall i | 0 <= i < |trades| :: trades[i].entryIndex <= trades[i].exitIndex < n
    ensures trades != [] ==> |trades| * h + 2 <= n
  {
    if trades != [] {
      LateSignal(trades, h, k, |trades| - 1);
      Multiple(|trades|, h);
    }
  }

  lemma Multiple(n: nat, h: nat)
    requires n > 0
    ensures n * h == (n - 1) * h + h
  {}

  /** A trade gains exactly if the price moved to its side. */
  lemma ReturnSign(side: Side, entry: real, exit: real)
    requires entry > 0.0
    ensures ReturnPct(side, entry, exit) > 0.0 <==> if side == Long then exit > entry else exit < entry
    ensures ReturnPct(side, entry, exit) == 0.0 <==> exit == entry
  {
    var q := (exit - entry) / entry;
    assert q * entry == exit - entry;
    if exit >= entry { QuotientNonneg(exit - entry, entry); } else { QuotientNonneg(entry - exit, entry); }
    if q == 0.0 { assert exit == entry; }
    if exit == entry { IsQuotient(0.0, entry, 0.0); }
    if exit < entry {
      IsQuotient(entry - exit, entry, -q);
    }
  }

  // ---------- no look-ahead ----------

  /** Evaluating, entering and leaving at an index look at no candle after the exit. */
  lemma TradeAtPrefix(points: seq<Point>, candles: seq<Candle>, more: seq<Point>, longer: seq<Candle>,
                      preset: Preset, h: Horizon, index: nat)
    requires |points| == |candles| && |more| == |longer| && points <= more && candles <= longer
    requires 1 <= index && index + h < |candles|
    ensures TradeAt(more, longer, preset, h, index) == TradeAt(points, candles, preset, h, index)
  {
    assert more[..index + 1] == points[..index + 1] && more[..index] == points[..index];
    assert longer[..index + 1] == candles[..index + 1] && longer[..index] == candles[..index];
  }

  lemma {:induction false} TradesBeforePrefix(points: seq<Point>, candles: seq<Candle>, more: seq<Point>,
      longer: seq<Candle>,
                                              preset: Preset, h: Horizon, k: nat)
    requires |points| == |candles| && |more| == |longer| && points <= more && candles <= longer
    requires k <= 1 || k - 1 + h < |candles|
    ensures TradesBefore(more, longer, preset, h, k) == TradesBefore(points, candles, preset, h, k)
  {
    if k > 1 {
      TradesBeforePrefix(points, candles, more, longer, preset, h, k - 1);
      TradeAtPrefix(points, candles, more, longer, preset, h, k - 1);
    }
  }

  lemma {:induction false} TradesGrow(points: seq<Point>, candles: seq<Candle>, preset: Preset, h: Horizon, j: nat,
      k: nat)
    requires |points| == |candles| && j <= k && (k <= 1 || k - 1 + h < |candles|)
    ensures TradesBefore(points, candles, preset, h, j) <= TradesBefore(points, candles, preset, h, k)
  {
    if j < k { TradesGrow(points, candles, preset, h, j, k - 1); }
  }

  /** Replaying a longer series repeats the trades of the shorter one and may append others. */
  lemma ReplayOnlyAppends(candles: seq<Candle>, more: seq<Candle>, p: Periods, preset: Preset, h: Horizon)
    ensures Replay(Points(candles, p), candles, preset, h)
         <= Replay(Points(candles + more, p), candles + more, preset, h)
  {
    var longer := candles + more;
    var points, morePoints := Points(candles, p), Points(longer, p);
    assert longer[..|candles|] == candles;
    PointsOfPrefix(longer, p, |candles|);
    var j := SignalCount(|candles|, h);
    TradesBeforePrefix(points, candles, morePoints, longer, preset, h, j);
    TradesGrow(morePoints, longer, preset, h, j, SignalCount(|longer|, h));
  }
}
