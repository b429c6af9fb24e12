/** The result figures of a backtest (`app/backtest/metrics.py`). */
module Metrics {
  import opened Common
  import opened Market
  import opened Ledger
  import opened SafetyGuard
  import opened BacktestTrace
  import Lists

  ghost predicate SomeDrop(equities: seq<real>, drop: real, pct: real)
  {
    exists i, j :: 0 <= i <= j < |equities| && IsDrop(equities, i, j, drop, pct)
  }

  /** From `i` to `j` the equity fell by `drop`, which is `pct` percent of the equity at `i`. */
  ghost predicate IsDrop(equities: seq<real>, i: nat, j: nat, drop: real, pct: real)
    requires i < |equities| && j < |equities|
  {
    equities[i] > 0.0 && drop == equities[i] - equities[j] && pct == drop / equities[i] * 100.0
  }

  ghost predicate IsPeak(equities: seq<real>, n: nat, peak: real)
    requires 0 < n <= |equities|
  {
    (forall i :: 0 <= i < n ==> equities[i] <= peak) && exists i :: 0 <= i < n && equities[i] == peak
  }

  /** No fall from a positive equity within the first `n` points is larger. */
  ghost predicate BoundsDrops(equities: seq<real>, n: nat, drop: real)
    requires n <= |equities|
  {
    drop >= 0.0 && forall i, j :: 0 <= i <= j < n && equities[i] > 0.0 ==> equities[i] - equities[j] <= drop
  }

  /**
   * The one-pass drawdown is the largest fall from any positive equity to a later one, with
   * the percentage of a fall that attains it; curves that never were positive have none.
   */
  method MaxDrawdown(equities: seq<real>) returns (drop: real, pct: real)
    ensures Reported(equities, drop, pct)
  {
    var peak: Option<real> := None;
    drop, pct := 0.0, 0.0;
    for n := 0 to |equities|
      invariant Drawn(equities, n, peak, drop, pct)
    {
      ghost var before, deepest, deepestPct := peak, drop, pct;
      if peak.None? || equities[n] > peak.value {
        peak := Some(equities[n]);
      }
      if peak.value > 0.0 {
        var fall := peak.value - equities[n];
        if fall > drop {
          drop := fall;
          pct := fall / peak.value * 100.0;
        }
      }
      DrawnOn(equities, n, before, deepest, deepestPct, peak.value, drop, pct);
    }
    DrawnAll(equities, peak, drop, pct);
  }

  /** What the loop knows after the first `n` points. */
  ghost predicate Drawn(equities: seq<real>, n: nat, peak: Option<real>, drop: real, pct: real)
    requires n <= |equities|
  {
    && (peak.None? <==> n == 0) && (n > 0 ==> IsPeak(equities, n, peak.value)) && BoundsDrops(equities, n, drop)
    && if n > 0 && peak.value > 0.0 then SomeDrop(equities, drop, pct) else drop == 0.0 && pct == 0.0
  }

  lemma DrawnOn(equities: seq<real>, n: nat, before: Option<real>, deepest: real, deepestPct: real, peak: real,
                drop: real, pct: real)
    requires n < |equities| && Drawn(equities, n, before, deepest, deepestPct)
    requires peak == if before.None? || equities[n] > before.value then equities[n] else before.value
    requires if peak > 0.0 && peak - equities[n] > deepest then
        drop == peak - equities[n] && pct == (peak - equities[n]) / peak * 100.0
      else drop == deepest && pct == deepestPct
    ensures Drawn(equities, n + 1, Some(peak), drop, pct)
  {
    PeakOn(equities, n, before);
    if peak > 0.0 { FallFromPeak(equities, n, peak, deepest); }
  }

  lemma PeakOn(equities: seq<real>, n: nat, peak: Option<real>)
    requires n < |equities| && (peak.None? <==> n == 0) && (n > 0 ==> IsPeak(equities, n, peak.value))
    ensures IsPeak(equities, n + 1, if peak.None? || equities[n] > peak.value then equities[n] else peak.value)
  {
  }

  /** The fall from the peak is a fall from a positive point, and no larger one ends at the newest point. */
  lemma FallFromPeak(equities: seq<real>, n: nat, peak: real, drop: real)
    requires n < |equities| && IsPeak(equities, n + 1, peak) && peak > 0.0 && BoundsDrops(equities, n, drop)
    ensures SomeDrop(equities, peak - equities[n], (peak - equities[n]) / peak * 100.0)
    ensures SomeDrop(equities, 0.0, 0.0)
    ensures BoundsDrops(equities, n + 1, if peak - equities[n] > drop then peak - equities[n] else drop)
  {
    var i :| 0 <= i < n + 1 && equities[i] == peak;
    assert IsDrop(equities, i, n, peak - equities[n], (peak - equities[n]) / peak * 100.0);
    assert IsDrop(equities, i, i, 0.0, 0.0);
  }

  lemma DrawnAll(equities: seq<real>, peak: Option<real>, drop: real, pct: real)
    requires Drawn(equities, |equities|, peak, drop, pct)
    ensures Reported(equities, drop, pct)
  {
  }

  /** How many points the curve opens with before its first positive one. */
  function Opening(equities: seq<real>): (m: nat)
    ensures m <= |equities| && (forall i :: 0 <= i < m ==> equities[i] <= 0.0)
    ensures m < |equities| ==> equities[m] > 0.0
  {
    if equities == [] || equities[0] > 0.0 then 0 else 1 + Opening(equities[1..])
  }

  /** Every fall before the first positive point is matched by a fall from a positive point. */
  ghost predicate OpeningCovered(equities: seq<real>)
  {
    forall i, j :: 0 <= i <= j < Opening(equities) ==> Matched(equities, equities[i] - equities[j])
  }

  ghost predicate Matched(equities: seq<real>, fall: real)
  {
    fall <= 0.0 || exists k, l :: 0 <= k <= l < |equities| && equities[k] > 0.0 && equities[k] - equities[l] >= fall
  }

  /** What `MaxDrawdown` promises of its results. */
  ghost predicate Reported(equities: seq<real>, drop: real, pct: real)
  {
    && BoundsDrops(equities, |equities|, drop)
    && if exists i :: 0 <= i < |equities| && equities[i] > 0.0 then
         SomeDrop(equities, drop, pct) else drop == 0.0 && pct == 0.0
  }

  /** A fall that reaches past the opening is bounded: the first positive point stands higher. */
  lemma LateFallBounded(equities: seq<real>, drop: real, i: nat, j: nat)
    requires BoundsDrops(equities, |equities|, drop) && i <= j < |equities| && Opening(equities) <= j
    ensures equities[i] - equities[j] <= drop
  {
    var m := Opening(equities);
    assert equities[m] - equities[j] <= drop;
    if equities[i] > 0.0 {
      assert equities[i] - equities[j] <= drop;
    }
  }

  lemma MatchedIsBounded(equities: seq<real>, drop: real, pct: real, fall: real)
    requires Reported(equities, drop, pct)
    ensures Matched(equities, fall) <==> fall <= drop
  {
    if 0.0 < fall <= drop {
      var i, j :| 0 <= i <= j < |equities| && IsDrop(equities, i, j, drop, pct);
      assert equities[i] > 0.0 && equities[i] - equities[j] >= fall;
    }
  }

  /**
   * The reported drawdown is the largest fall between any two points if and only if the
   * curve hides none in its opening: no fall there exceeds every fall from a positive point.
   */
  lemma DrawdownBoundsAll(equities: seq<real>, drop: real, pct: real)
    requires Reported(equities, drop, pct)
    ensures (forall i, j :: 0 <= i <= j < |equities| ==> equities[i] - equities[j] <= drop) <==>
      OpeningCovered(equities)
  {
    var m := Opening(equities);
    forall i, j | 0 <= i <= j < |equities| ensures equities[i] - equities[j] <= drop
      || (j < m && !Matched(equities, equities[i] - equities[j])) {
      if j >= m {
        LateFallBounded(equities, drop, i, j);
      } else {
        MatchedIsBounded(equities, drop, pct, equities[i] - equities[j]);
      }
    }
    forall i, j | 0 <= i <= j < m ensures Matched(equities, equities[i] - equities[j]) <==>
      equities[i] - equities[j] <= drop {
      MatchedIsBounded(equities, drop, pct, equities[i] - equities[j]);
    }
  }

  /** A curve that starts below zero can hide a fall: from -1 to -3 the reported drawdown can only be 0. */
  lemma NegativeStartHidesFall(drop: real, pct: real)
    requires Reported([-1.0, -3.0], drop, pct)
    ensures drop == 0.0 < [-1.0, -3.0][0] - [-1.0, -3.0][1]
  {
  }

  // ------------------------------------------------------------------ profit figures

  function GrossProfit(trades: seq<Trade>): real
  {
    if trades == [] then 0.0 else GrossProfit(trades[..|trades| - 1]) + Max(trades[|trades| - 1].netPnl, 0.0)
  }

  function GrossLoss(trades: seq<Trade>): real
  {
    if trades == [] then 0.0 else GrossLoss(trades[..|trades| - 1]) + Max(-trades[|trades| - 1].netPnl, 0.0)
  }

  /** What winners made less what losers lost is the whole trade list. */
  lemma {:induction false} GrossIsNet(trades: seq<Trade>)
    ensures GrossProfit(trades) - GrossLoss(trades) == NetSum(trades)
    ensures GrossProfit(trades) >= 0.0 && GrossLoss(trades) >= 0.0
  {
    if trades != [] { GrossIsNet(trades[..|trades| - 1]); }
  }

  function Won(): Trade -> bool { (t: Trade) => t.netPnl > 0.0 }

  function Lost(): Trade -> bool { (t: Trade) => t.netPnl < 0.0 }

  /** The gross profit is what the winners made, the gross loss what the losers lost. */
  lemma {:induction false} GrossIsWonAndLost(trades: seq<Trade>)
    ensures GrossProfit(trades) == NetSum(Lists.Keep(trades, Won()))
    ensures GrossLoss(trades) == -NetSum(Lists.Keep(trades, Lost()))
  {
    if trades != [] {
      var init, t := trades[..|trades| - 1], trades[|trades| - 1];
      GrossIsWonAndLost(init);
      assert Lists.Keep(trades, Won()) ==
        if t.netPnl > 0.0 then Lists.Keep(init, Won()) + [t] else Lists.Keep(init, Won());
      assert Lists.Keep(trades, Lost()) ==
        if t.netPnl < 0.0 then Lists.Keep(init, Lost()) + [t] else Lists.Keep(init, Lost());
      NetSumSnoc(Lists.Keep(init, Won()), t);
      NetSumSnoc(Lists.Keep(init, Lost()), t);
    }
  }

  ghost function NetPnl(a: Account): real
  {
    a.realizedPnl + Unrealized(a.positions, a.marks) - a.feesPaid - a.fundingPaid
  }

  /** The reported net profit is the total return; and, flat, it is gross profit less gross loss less funding. */
  lemma NetPnlIsReturn(cfg: BrokerConfig, a: Account, trades: seq<Trade>, legs: map<string, real>,
                       daily: map<int, real>)
    requires BooksAgree(trades, legs, daily, a)
    ensures NetPnl(a) == Equity(cfg, a) - cfg.startingEquity
    ensures a.positions == map[] ==> NetPnl(a) == GrossProfit(trades) - GrossLoss(trades) - a.fundingPaid
  {
    GrossIsNet(trades);
    if a.positions == map[] { FlatBooks(cfg, trades, legs, daily, a); }
  }
}
