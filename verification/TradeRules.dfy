/** Which trades a replay opens, in terms of the indicator values and prices alone. */
module TradeRules {
  import opened RealFacts
  import opened Indicators
  import opened IndicatorSeries
  import opened Strategies
  import opened WarmUp

  // ---------- the side of a signal ----------

  /** The indicator of the preset turns upwards between two points: the fast average comes above
      the slow one, the histogram above zero, or the index falls below 30. */
  predicate TurnsUp(before: Point, now: Point, preset: Preset) {
    match preset
    case EmaCross =>
      && before.emaFast.Some? && before.emaSlow.Some? && now.emaFast.Some? && now.emaSlow.Some?
      && before.emaFast.value <= before.emaSlow.value && now.emaFast.value > now.emaSlow.value
    case MacdHist =>
      && before.macdHistogram.Some? && now.macdHistogram.Some?
      && before.macdHistogram.value <= 0.0 < now.macdHistogram.value
    case RsiRevert => before.rsi.Some? && now.rsi.Some? && now.rsi.value < 30.0 <= before.rsi.value
  }

  predicate TurnsDown(before: Point, now: Point, preset: Preset) {
    match preset
    case EmaCross =>
      && before.emaFast.Some? && before.emaSlow.Some? && now.emaFast.Some? && now.emaSlow.Some?
      && before.emaFast.value >= before.emaSlow.value && now.emaFast.value < now.emaSlow.value
    case MacdHist =>
      && before.macdHistogram.Some? && now.macdHistogram.Some?
      && now.macdHistogram.value < 0.0 <= before.macdHistogram.value
    case RsiRevert => before.rsi.Some? && now.rsi.Some? && before.rsi.value <= 70.0 < now.rsi.value
  }

  /** The fields for default periods say the same as the others. */
  predicate Aliased(q: Point) {
    && (q.ema20.Some? ==> q.ema20 == q.emaFast) && (q.ema50.Some? ==> q.ema50 == q.emaSlow)
    && (q.rsi14.Some? ==> q.rsi14 == q.rsi)
  }

  lemma SideExactly(before: Point, now: Point, preset: Preset)
    requires Aliased(before) && Aliased(now)
    ensures SideFrom(now, before, preset) == Some(Long) <==> TurnsUp(before, now, preset)
    ensures SideFrom(now, before, preset) == Some(Short) <==> TurnsDown(before, now, preset)
  {}

  lemma PointAliased(cs: seq<Candle>, p: Periods, k: nat)
    requires k < |cs|
    ensures Aliased(Points(cs, p)[k])
  {
    PointAt(cs, p, k);
  }

  // ---------- which signals open a trade ----------

  ghost predicate Has(trades: seq<Trade>, k: nat) {
    exists i | 0 <= i < |trades| :: trades[i].signalIndex == k
  }

  /** No trade of an earlier signal is still open. */
  ghost predicate Free(trades: seq<Trade>, h: Horizon, k: nat) {
    forall i | 0 <= i < |trades| && trades[i].signalIndex < k :: trades[i].signalIndex + h <= k
  }

  ghost predicate Justified(points: seq<Point>, candles: seq<Candle>, preset: Preset, h: Horizon, t: Trade)
    requires |points| == |candles|
  {
    && 1 <= t.signalIndex && t.signalIndex + h < |candles|
    && TradeAt(points, candles, preset, h, t.signalIndex) == Some(t)
  }

  ghost predicate Complete(points: seq<Point>, candles: seq<Candle>, preset: Preset, h: Horizon,
                           trades: seq<Trade>, k: nat)
    requires |points| == |candles|
  {
    1 <= k && k + h < |candles| &&
    (Has(trades, k) <==> TradeAt(points, candles, preset, h, k).Some? && Free(trades, h, k))
  }

  /** What holds of the trades of the signals before `k`. */
  ghost predicate Exact(points: seq<Point>, candles: seq<Candle>, preset: Preset, h: Horizon,
                        trades: seq<Trade>, k: nat)
    requires |points| == |candles|
  {
    && (forall i | 0 <= i < |trades| :: Justified(points, candles, preset, h, trades[i]))
    && (forall j: nat | 1 <= j < k :: Complete(points, candles, preset, h, trades, j))
  }

  lemma {:induction false} ReplayExactly(points: seq<Point>, candles: seq<Candle>, preset: Preset, h: Horizon, k: nat)
    requires |points| == |candles| && (k <= 1 || k - 1 + h < |candles|)
    ensures Exact(points, candles, preset, h, TradesBefore(points, candles, preset, h, k), k)
  {
    if k > 1 {
      ReplayExactly(points, candles, preset, h, k - 1);
      ReplaySpaced(points, candles, preset, h, k - 1);
      OneMoreSignal(points, candles, preset, h, k - 1, TradesBefore(points, candles, preset, h, k - 1));
    }
  }

  lemma OneMoreSignal(points: seq<Point>, candles: seq<Candle>, preset: Preset, h: Horizon, k: nat,
                      earlier: seq<Trade>)
    requires |points| == |candles| && 1 <= k && k + h < |candles|
    requires earlier == TradesBefore(points, candles, preset, h, k)
    requires Spaced(earlier, h, k) && Exact(points, candles, preset, h, earlier, k)
    ensures Exact(points, candles, preset, h, TradesBefore(points, candles, preset, h, k + 1), k + 1)
  {
    var trade := TradeAt(points, candles, preset, h, k);
    if k < NextSignalIndex(earlier, h) || trade.None? {
      NoneOpened(points, candles, preset, h, k, earlier);
      Wider(points, candles, preset, h, k, earlier);
    } else {
      OneOpened(points, candles, preset, h, k, earlier, trade.value);
    }
  }

  lemma Wider(points: seq<Point>, candles: seq<Candle>, preset: Preset, h: Horizon, k: nat, trades: seq<Trade>)
    requires |points| == |candles| && Exact(points, candles, preset, h, trades, k)
    requires Complete(points, candles, preset, h, trades, k)
    ensures Exact(points, candles, preset, h, trades, k + 1)
  {}

  lemma NoneOpened(points: seq<Point>, candles: seq<Candle>, preset: Preset, h: Horizon, k: nat, earlier: seq<Trade>)
    requires |points| == |candles| && 1 <= k && k + h < |candles|
    requires Spaced(earlier, h, k)
    requires k < NextSignalIndex(earlier, h) || TradeAt(points, candles, preset, h, k).None?
    ensures Complete(points, candles, preset, h, earlier, k)
  {
    if k < NextSignalIndex(earlier, h) {
      assert earlier != [] && earlier[|earlier| - 1].signalIndex + h > k;
    }
  }

  lemma OneOpened(points: seq<Point>, candles: seq<Candle>, preset: Preset, h: Horizon, k: nat,
                  earlier: seq<Trade>, t: Trade)
    requires |points| == |candles| && 1 <= k && k + h < |candles|
    requires Spaced(earlier, h, k) && k >= NextSignalIndex(earlier, h)
    requires TradeAt(points, candles, preset, h, k) == Some(t)
    requires Exact(points, candles, preset, h, earlier, k)
    ensures Exact(points, candles, preset, h, earlier + [t], k + 1)
  {
    var trades := earlier + [t];
    TradeAtShape(points, candles, preset, h, k, t);
    assert trades[|earlier|].signalIndex == k;
    forall i | 0 <= i < |earlier| ensures earlier[i].signalIndex + h <= k { LastSignal(earlier, h, k, i); }
    assert Free(trades, h, k);
    forall j: nat | 1 <= j < k ensures Complete(points, candles, preset, h, trades, j) {
      assert Complete(points, candles, preset, h, earlier, j);
      SameBefore(earlier, t, h, j);
    }
  }

  lemma SameBefore(earlier: seq<Trade>, t: Trade, h: Horizon, j: nat)
    requires j < t.signalIndex
    ensures Has(earlier + [t], j) <==> Has(earlier, j)
    ensures Free(earlier + [t], h, j) <==> Free(earlier, h, j)
  {
    var trades := earlier + [t];
    assert forall i | 0 <= i < |earlier| :: trades[i] == earlier[i];
    if Has(earlier, j) {
      var i :| 0 <= i < |earlier| && earlier[i].signalIndex == j;
      assert trades[i].signalIndex == j;
    }
  }

  // ---------- in terms of values and prices ----------

  /** A trade enters at the open of the candle after its signal, leaves at the close of the candle
      a horizon after it, and gains exactly if the price moved to its side; its return is the
      change in per cent of the entry. */
  ghost predicate Priced(cs: seq<Candle>, h: Horizon, t: Trade) {
    && 1 <= t.signalIndex && t.signalIndex + h < |cs|
    && t.entryIndex == t.signalIndex + 1 && t.entry == cs[t.signalIndex + 1].open > 0.0
    && t.exitIndex == t.signalIndex + h && t.exit == cs[t.signalIndex + h].close
    && t.returnPct * t.entry == (if t.side == Long then t.exit - t.entry else t.entry - t.exit) * 100.0
    && (t.returnPct > 0.0 <==> if t.side == Long then t.exit > t.entry else t.exit < t.entry)
  }

  /** It is on the side the indicator has turned to. */
  ghost predicate Sided(before: Point, now: Point, preset: Preset, t: Trade) {
    && (t.side == Long <==> TurnsUp(before, now, preset)) && (t.side == Short <==> TurnsDown(before, now, preset))
    && t.event == (if preset == RsiRevert then if t.side == Long then Oversold else Overbought
                   else if t.side == Long then CrossUp else CrossDown)
  }

  ghost predicate Right(cs: seq<Candle>, p: Periods, preset: Preset, h: Horizon, t: Trade) {
    && Priced(cs, h, t)
    && Sided(Points(cs, p)[t.signalIndex - 1], Points(cs, p)[t.signalIndex], preset, t)
  }

  lemma ReturnIs(side: Side, entry: real, exit: real)
    requires entry > 0.0
    ensures ReturnPct(side, entry, exit) * entry == (if side == Long then exit - entry else entry - exit) * 100.0
  {
    var q := (exit - entry) / entry;
    assert q * entry == exit - entry;
    Scaled(q, entry, 100.0);
    Scaled(q, entry, -100.0);
  }

  lemma Scaled(q: real, e: real, c: real)
    ensures q * c * e == q * e * c
  {}

  lemma JustifiedIsPriced(points: seq<Point>, cs: seq<Candle>, preset: Preset, h: Horizon, t: Trade)
    requires |points| == |cs| && Justified(points, cs, preset, h, t)
    ensures Priced(cs, h, t)
  {
    ReturnSign(t.side, t.entry, t.exit);
    ReturnIs(t.side, t.entry, t.exit);
  }

  lemma JustifiedIsSided(points: seq<Point>, cs: seq<Candle>, preset: Preset, h: Horizon, t: Trade)
    requires |points| == |cs| && Justified(points, cs, preset, h, t)
    requires Aliased(points[t.signalIndex - 1]) && Aliased(points[t.signalIndex])
    ensures Sided(points[t.signalIndex - 1], points[t.signalIndex], preset, t)
  {
    SideAtIs(points, cs, preset, t.signalIndex);
    SideExactly(points[t.signalIndex - 1], points[t.signalIndex], preset);
    EventIs(points, cs, preset, t.signalIndex);
  }

  lemma EventIs(points: seq<Point>, candles: seq<Candle>, preset: Preset, k: nat)
    requires 1 <= k < |candles| == |points| && SideAt(points, candles, preset, k).Some?
    ensures
      var event := EvaluateStrategy(points[..k + 1], candles[..k + 1], preset).event;
      && (SideAt(points, candles, preset, k) == Some(Long) ==>
            event == if preset == RsiRevert then Oversold else CrossUp)
      && (SideAt(points, candles, preset, k) == Some(Short) ==>
            event == if preset == RsiRevert then Overbought else CrossDown)
  {
    LastTwo(points, k);
  }

  lemma JustifiedIsRight(cs: seq<Candle>, p: Periods, preset: Preset, h: Horizon, t: Trade)
    requires Justified(Points(cs, p), cs, preset, h, t)
    ensures Right(cs, p, preset, h, t)
  {
    JustifiedIsPriced(Points(cs, p), cs, preset, h, t);
    JustifiedAt(cs, p, Points(cs, p), preset, h, t);
  }

  lemma JustifiedAt(cs: seq<Candle>, p: Periods, points: seq<Point>, preset: Preset, h: Horizon, t: Trade)
    requires points == Points(cs, p) && Justified(points, cs, preset, h, t)
    ensures Sided(points[t.signalIndex - 1], points[t.signalIndex], preset, t)
  {
    PointAliased(cs, p, t.signalIndex - 1);
    PointAliased(cs, p, t.signalIndex);
    JustifiedIsSided(points, cs, preset, h, t);
  }

  lemma OpensExactly(cs: seq<Candle>, p: Periods, preset: Preset, h: Horizon, k: nat)
    requires 1 <= k && k + h < |cs|
    ensures
      var before, now := Points(cs, p)[k - 1], Points(cs, p)[k];
      TradeAt(Points(cs, p), cs, preset, h, k).Some?
      <==> (TurnsUp(before, now, preset) || TurnsDown(before, now, preset)) && cs[k + 1].open > 0.0
  {
    PointAliased(cs, p, k - 1);
    PointAliased(cs, p, k);
    OpensAt(Points(cs, p), cs, preset, h, k);
  }

  lemma OpensAt(points: seq<Point>, cs: seq<Candle>, preset: Preset, h: Horizon, k: nat)
    requires 1 <= k && k + h < |cs| == |points| && Aliased(points[k - 1]) && Aliased(points[k])
    ensures
      TradeAt(points, cs, preset, h, k).Some? <==>
        && (TurnsUp(points[k - 1], points[k], preset) || TurnsDown(points[k - 1], points[k], preset))
        && cs[k + 1].open > 0.0
  {
    SideAtIs(points, cs, preset, k);
    SideExactly(points[k - 1], points[k], preset);
  }

  /** A signal opens a trade exactly if the indicator turns at it, the next candle opens above zero,
      and no earlier trade is still open. */
  ghost predicate Opened(cs: seq<Candle>, p: Periods, preset: Preset, h: Horizon, trades: seq<Trade>, k: nat)
    requires 1 <= k && k + h < |cs|
  {
    var before, now := Points(cs, p)[k - 1], Points(cs, p)[k];
    Has(trades, k) <==>
      && (TurnsUp(before, now, preset) || TurnsDown(before, now, preset))
      && cs[k + 1].open > 0.0 && Free(trades, h, k)
  }

  lemma CompleteIsOpened(cs: seq<Candle>, p: Periods, preset: Preset, h: Horizon, trades: seq<Trade>, k: nat)
    requires 1 <= k && k + h < |cs| && Complete(Points(cs, p), cs, preset, h, trades, k)
    ensures Opened(cs, p, preset, h, trades, k)
  {
    OpensExactly(cs, p, preset, h, k);
  }

  /** Every trade of a replay is right, and there is one for every signal that opens one. */
  lemma TradesExactly(cs: seq<Candle>, p: Periods, preset: Preset, h: Horizon)
    ensures
      var trades := Replay(Points(cs, p), cs, preset, h);
      && (forall i | 0 <= i < |trades| :: Right(cs, p, preset, h, trades[i]))
      && (forall k: nat | 1 <= k && k + h < |cs| :: Opened(cs, p, preset, h, trades, k))
  {
    ReplayExactly(Points(cs, p), cs, preset, h, SignalCount(|cs|, h));
    ExactIsRight(cs, p, preset, h, Replay(Points(cs, p), cs, preset, h));
  }

  lemma ExactIsRight(cs: seq<Candle>, p: Periods, preset: Preset, h: Horizon, trades: seq<Trade>)
    requires Exact(Points(cs, p), cs, preset, h, trades, SignalCount(|cs|, h))
    ensures forall i | 0 <= i < |trades| :: Right(cs, p, preset, h, trades[i])
    ensures forall k: nat | 1 <= k && k + h < |cs| :: Opened(cs, p, preset, h, trades, k)
  {
    forall i | 0 <= i < |trades| ensures Right(cs, p, preset, h, trades[i]) {
      JustifiedIsRight(cs, p, preset, h, trades[i]);
    }
    forall k: nat | 1 <= k && k + h < |cs| ensures Opened(cs, p, preset, h, trades, k) {
      assert Complete(Points(cs, p), cs, preset, h, trades, k);
      CompleteIsOpened(cs, p, preset, h, trades, k);
    }
  }

  // ---------- evaluations ----------

  /** The bias of an evaluation is the side the indicator is on, and its confidence is medium exactly
      if it has just come there, or for the index if it is on a side at all. */
  lemma EvaluationExactly(before: Point, now: Point)
    requires Aliased(before) && Aliased(now)
    requires before.emaFast.Some? && before.emaSlow.Some? && now.emaFast.Some? && now.emaSlow.Some?
    requires before.macdHistogram.Some? && now.macdHistogram.Some? && now.rsi.Some?
    ensures
      var e := EvaluateEmaCross(now, Some(before));
      && (e.bias == Bullish <==> now.emaFast.value > now.emaSlow.value)
      && (e.bias == Bearish <==> now.emaFast.value < now.emaSlow.value)
      && e.bias != NoBias && (e.medium <==> TurnsUp(before, now, EmaCross) || TurnsDown(before, now, EmaCross))
    ensures
      var e := EvaluateMacdHist(now, Some(before));
      && (e.bias == Bullish <==> now.macdHistogram.value > 0.0)
      && (e.bias == Bearish <==> now.macdHistogram.value < 0.0)
      && e.bias != NoBias && (e.medium <==> TurnsUp(before, now, MacdHist) || TurnsDown(before, now, MacdHist))
    ensures
      var e := EvaluateRsiRevert(now);
      && (e.bias == Bullish <==> now.rsi.value < 30.0) && (e.bias == Bearish <==> now.rsi.value > 70.0)
      && e.bias != NoBias && (e.medium <==> e.bias != Neutral)
  {}
}
