/** The statistics a rule replay reports over its trades. */
module ReplayStats {
  import opened RealFacts
  import opened Indicators
  import opened Strategies

  datatype Stats = Stats(
    tradeCount: nat, longs: nat, shorts: nat, wins: nat, losses: nat, flats: nat,
    winRate: Option<real>, avgReturnPct: Option<real>, sumReturnPct: real,
    bestReturnPct: Option<real>, worstReturnPct: Option<real>)

  function Returns(trades: seq<Trade>): (rs: seq<real>)
    ensures |rs| == |trades| && forall i | 0 <= i < |rs| :: rs[i] == trades[i].returnPct
  {
    if trades == [] then [] else Returns(trades[..|trades| - 1]) + [trades[|trades| - 1].returnPct]
  }

  function On(trades: seq<Trade>, side: Side): nat {
    if trades == [] then 0
    else On(trades[..|trades| - 1], side) + if trades[|trades| - 1].side == side then 1 else 0
  }

  function Above(rs: seq<real>): nat {
    if rs == [] then 0 else Above(rs[..|rs| - 1]) + if rs[|rs| - 1] > 0.0 then 1 else 0
  }

  function Below(rs: seq<real>): nat {
    if rs == [] then 0 else Below(rs[..|rs| - 1]) + if rs[|rs| - 1] < 0.0 then 1 else 0
  }

  function Level(rs: seq<real>): nat {
    if rs == [] then 0 else Level(rs[..|rs| - 1]) + if rs[|rs| - 1] == 0.0 then 1 else 0
  }

  function Highest(rs: seq<real>): real
    requires rs != []
  {
    if |rs| == 1 then rs[0] else Max(Highest(rs[..|rs| - 1]), rs[|rs| - 1])
  }

  function Lowest(rs: seq<real>): real
    requires rs != []
  {
    if |rs| == 1 then rs[0]
    else
      var l := Lowest(rs[..|rs| - 1]);
      if rs[|rs| - 1] < l then rs[|rs| - 1] else l
  }

  function Summary(trades: seq<Trade>): Stats {
    var rs := Returns(trades);
    var n := |trades|;
    Stats(n, On(trades, Long), On(trades, Short), Above(rs), Below(rs), Level(rs),
          if n == 0 then None else Some(Above(rs) as real / n as real),
          if n == 0 then None else Some(Sum(rs) / n as real),
          Sum(rs),
          if n == 0 then None else Some(Highest(rs)),
          if n == 0 then None else Some(Lowest(rs)))
  }

  lemma {:induction false} SidesSplit(trades: seq<Trade>)
    ensures On(trades, Long) + On(trades, Short) == |trades|
  {
    if trades != [] { SidesSplit(trades[..|trades| - 1]); }
  }

  lemma {:induction false} ReturnsSplit(rs: seq<real>)
    ensures Above(rs) + Below(rs) + Level(rs) == |rs|
  {
    if rs != [] { ReturnsSplit(rs[..|rs| - 1]); }
  }

  lemma {:induction false} Extremes(rs: seq<real>)
    requires rs != []
    ensures Highest(rs) in rs && Lowest(rs) in rs
    ensures forall i | 0 <= i < |rs| :: Lowest(rs) <= rs[i] <= Highest(rs)
  {
    if |rs| > 1 {
      var n := |rs| - 1;
      Extremes(rs[..n]);
      forall i | 0 <= i < |rs| ensures Lowest(rs) <= rs[i] <= Highest(rs) {
        if i < n { assert rs[..n][i] == rs[i]; }
      }
    }
  }

  /** The counts split the trades by side and by sign of the return, rates and averages are there
      exactly if there is a trade, and the average lies between the worst and the best return, which
      some trade attains. */
  lemma SummaryConsistent(trades: seq<Trade>)
    ensures
      var s := Summary(trades);
      && s.longs + s.shorts == s.tradeCount && s.wins + s.losses + s.flats == s.tradeCount
      && (s.winRate.Some? <==> trades != [])
      && (trades != [] ==>
            && 0.0 <= s.winRate.value <= 1.0
            && s.worstReturnPct.value <= s.avgReturnPct.value <= s.bestReturnPct.value
            && (exists t | t in trades :: t.returnPct == s.bestReturnPct.value)
            && (exists t | t in trades :: t.returnPct == s.worstReturnPct.value))
  {
    SidesSplit(trades);
    ReturnsSplit(Returns(trades));
    if trades != [] { RatesBetween(trades, Returns(trades)); }
  }

  lemma RatesBetween(trades: seq<Trade>, rs: seq<real>)
    requires trades != [] && rs == Returns(trades)
    ensures 0.0 <= Above(rs) as real / |trades| as real <= 1.0
    ensures Lowest(rs) <= Sum(rs) / |trades| as real <= Highest(rs)
    ensures exists t | t in trades :: t.returnPct == Highest(rs)
    ensures exists t | t in trades :: t.returnPct == Lowest(rs)
  {
    Extremes(rs);
    Attained(trades, rs, Highest(rs));
    Attained(trades, rs, Lowest(rs));
    ShareOf(rs);
    MeanOf(rs);
  }

  lemma ShareOf(rs: seq<real>)
    requires rs != []
    ensures 0.0 <= Above(rs) as real / |rs| as real <= 1.0
  {
    ReturnsSplit(rs);
    QuotientBounds(Above(rs) as real, 0.0, 1.0, |rs| as real);
  }

  lemma MeanOf(rs: seq<real>)
    requires rs != []
    ensures Lowest(rs) <= Sum(rs) / |rs| as real <= Highest(rs)
  {
    Extremes(rs);
    SumWithin(rs, Lowest(rs), Highest(rs));
    QuotientBounds(Sum(rs), Lowest(rs), Highest(rs), |rs| as real);
  }

  lemma Attained(trades: seq<Trade>, rs: seq<real>, r: real)
    requires rs == Returns(trades) && r in rs
    ensures exists t | t in trades :: t.returnPct == r
  {
    var i :| 0 <= i < |rs| && rs[i] == r;
    assert trades[i] in trades && trades[i].returnPct == r;
  }

  // ---------- what is counted ----------

  ghost function Places(trades: seq<Trade>, p: Trade -> bool): set<nat> {
    set i: nat | i < |trades| && p(trades[i])
  }

  lemma PlacesMore(trades: seq<Trade>, p: Trade -> bool)
    requires trades != []
    ensures
      var n := |trades| - 1;
      |Places(trades, p)| == |Places(trades[..n], p)| + if p(trades[n]) then 1 else 0
  {
    var n := |trades| - 1;
    assert Places(trades, p) == Places(trades[..n], p) + if p(trades[n]) then {n} else {};
  }

  lemma {:induction false} SidesCounted(trades: seq<Trade>, side: Side, p: Trade -> bool)
    requires forall t: Trade :: p(t) <==> t.side == side
    ensures On(trades, side) == |Places(trades, p)|
  {
    if trades != [] {
      PlacesMore(trades, p);
      SidesCounted(trades[..|trades| - 1], side, p);
    }
  }

  lemma {:induction false} WinsCounted(trades: seq<Trade>, p: Trade -> bool)
    requires forall t: Trade :: p(t) <==> t.returnPct > 0.0
    ensures Above(Returns(trades)) == |Places(trades, p)|
  {
    if trades != [] {
      PlacesMore(trades, p);
      WinsCounted(trades[..|trades| - 1], p);
    }
  }

  lemma {:induction false} LossesCounted(trades: seq<Trade>, p: Trade -> bool)
    requires forall t: Trade :: p(t) <==> t.returnPct < 0.0
    ensures Below(Returns(trades)) == |Places(trades, p)|
  {
    if trades != [] {
      PlacesMore(trades, p);
      LossesCounted(trades[..|trades| - 1], p);
    }
  }

  lemma {:induction false} FlatsCounted(trades: seq<Trade>, p: Trade -> bool)
    requires forall t: Trade :: p(t) <==> t.returnPct == 0.0
    ensures Level(Returns(trades)) == |Places(trades, p)|
  {
    if trades != [] {
      PlacesMore(trades, p);
      FlatsCounted(trades[..|trades| - 1], p);
    }
  }

  /** Each count is the number of trades with that side or that sign of the return. */
  lemma CountsExactly(trades: seq<Trade>)
    ensures
      var s := Summary(trades);
      && s.tradeCount == |trades|
      && s.longs == |Places(trades, (t: Trade) => t.side == Long)|
      && s.shorts == |Places(trades, (t: Trade) => t.side == Short)|
      && s.wins == |Places(trades, (t: Trade) => t.returnPct > 0.0)|
      && s.losses == |Places(trades, (t: Trade) => t.returnPct < 0.0)|
      && s.flats == |Places(trades, (t: Trade) => t.returnPct == 0.0)|
  {
    SidesCounted(trades, Long, (t: Trade) => t.side == Long);
    SidesCounted(trades, Short, (t: Trade) => t.side == Short);
    WinsCounted(trades, (t: Trade) => t.returnPct > 0.0);
    LossesCounted(trades, (t: Trade) => t.returnPct < 0.0);
    FlatsCounted(trades, (t: Trade) => t.returnPct == 0.0);
  }

  /** The rate is the share of the wins, and the average the share of the sum of the returns. */
  lemma RatesExactly(trades: seq<Trade>, n: real, rate: real, average: real)
    requires trades != [] && n == |trades| as real
    requires Summary(trades).winRate == Some(rate) && Summary(trades).avgReturnPct == Some(average)
    ensures rate * n == Summary(trades).wins as real
    ensures average * n == Summary(trades).sumReturnPct == Sum(Returns(trades))
  {
    var rs := Returns(trades);
    Shared(Above(rs) as real, n, rate);
    Shared(Sum(rs), n, average);
  }

  lemma Shared(a: real, n: real, share: real)
    requires n != 0.0 && share == a / n
    ensures share * n == a
  {}

  /** Every return lies between the worst and the best. */
  lemma ReturnsBetween(trades: seq<Trade>, i: nat)
    requires i < |trades|
    ensures Summary(trades).worstReturnPct.Some? && Summary(trades).bestReturnPct.Some?
    ensures Summary(trades).worstReturnPct.value <= trades[i].returnPct <= Summary(trades).bestReturnPct.value
  {
    Extremes(Returns(trades));
    assert Returns(trades)[i] == trades[i].returnPct;
  }
}
