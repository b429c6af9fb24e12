/**
 * What holds an entry back, read off everything the safety guard was told: candles and trades open windows in which
 * entries are blocked, and a profitable exit asks for a pause and a pullback before its direction is entered again.
 */
module GuardRules {
  import opened Common
  import opened Market
  import opened SafetyGuard

  // ------------------------------------------------------------------ what opens a window

  /** `high` is the highest of the starting equity and the equities seen. */
  ghost predicate Highest(start: real, equities: seq<(int, real)>, high: real)
  {
    && start <= high && (forall e :: e in equities ==> e.1 <= high)
    && (high == start || exists e :: e in equities && e.1 == high)
  }

  /** The equity is at or below its highest value less the threshold. */
  ghost predicate GivesBack(u: Setup, equities: seq<(int, real)>, equity: real)
  {
    u.cfg.givebackEnabled
    && exists high :: Highest(u.peak, equities, high) && high > 0.0
                      && equity <= Times(1.0 - u.cfg.givebackThreshold, high)
  }

  /** It is at or above an earlier value plus the gain: the one so many back, the newest being the first. */
  ghost predicate Spikes(u: Setup, equities: seq<(int, real)>, equity: real)
  {
    var back, n := u.cfg.postSpikeLookback, |equities|;
    var kept := if back + 1 > 100 then back + 1 else 100;
    && u.cfg.postSpikeEnabled && back < n
    && var past := equities[if back > 0 then n - back else if n > kept then n - kept else 0].1;
    past > 0.0 && equity >= Times(1.0 + u.cfg.postSpikeGain, past)
  }

  /** The last so many trades have all lost. */
  ghost predicate Streak(u: Setup, trades: seq<Trade>)
  {
    var limit := if u.cfg.lossStreakEnabled then u.cfg.consecutiveLossLimit else u.cfg.maxConsecutiveLosses;
    0 < limit <= |trades| && forall k :: |trades| - limit <= k < |trades| ==> trades[k].netPnl < 0.0
  }

  /** Too many of the newest trades have lost, the last one too; a window beyond the 50 trades kept never fills. */
  ghost predicate Rolls(u: Setup, trades: seq<Trade>)
  {
    var c, n := u.cfg, |trades|;
    && c.lossStreakEnabled && n > 0 && trades[n - 1].netPnl < 0.0
    && if c.rollingLossWindow > 0 then
         && c.rollingLossWindow <= n && c.rollingLossWindow <= 50
         && CountLosses(trades, n - c.rollingLossWindow, n) >= c.rollingLossLimit
       else RollingReached(c, Newest(trades, RECENT_TRADES))
  }

  lemma GivesExactly(u: Setup, equities: seq<(int, real)>, equity: real)
    ensures GivenBack(u.cfg, PeakOf(u.peak, equities), equity) <==> GivesBack(u, equities, equity)
  {
    var peak := PeakOf(u.peak, equities);
    PeakOfIsMaximum(u.peak, equities);
    assert Highest(u.peak, equities, peak);
    if peak > 0.0 { BelowPeak(peak, equity, u.cfg.givebackThreshold); }
  }

  lemma BelowPeak(peak: real, equity: real, share: real)
    requires peak > 0.0
    ensures (peak - equity) / peak >= share <==> equity <= Times(1.0 - share, peak)
    ensures (equity - peak) / peak >= share <==> equity >= Times(1.0 + share, peak)
  {
    RatioCompares(peak - equity, peak, share);
    RatioCompares(equity - peak, peak, share);
    TimesSum(1.0, share, peak);
    TimesSum(1.0 - share, share, peak);
  }

  lemma SpikesExactly(u: Setup, equities: seq<(int, real)>, equity: real)
    ensures var history := Newest(equities, HistoryCap(u.cfg));
      SpikeSeen(u.cfg, history, equity) <==> Spikes(u, equities, equity)
  {
    var history := Newest(equities, HistoryCap(u.cfg));
    if u.cfg.postSpikeLookback < |history| && PastEquity(u.cfg, history) > 0.0 {
      BelowPeak(PastEquity(u.cfg, history), equity, u.cfg.postSpikeGain);
    }
  }

  lemma StreakIsRun(trades: seq<Trade>, limit: nat)
    ensures TrailingLosses(trades) >= limit <==>
      limit <= |trades| && forall k :: |trades| - limit <= k < |trades| ==> trades[k].netPnl < 0.0
  {
    TrailingLossesIsStreak(trades);
    var n := TrailingLosses(trades);
    if n < limit <= |trades| { assert !Loses(trades[|trades| - 1 - n]); }
  }

  lemma StreakExactly(u: Setup, trades: seq<Trade>)
    requires trades != []
    ensures Loses(trades[|trades| - 1]) && StreakReached(u.cfg, TrailingLosses(trades)) <==> Streak(u, trades)
  {
    if StreakLimit(u.cfg) > 0 { StreakIsRun(trades, StreakLimit(u.cfg)); }
  }

  lemma {:induction false} CountTail(trades: seq<Trade>, tail: seq<Trade>, from: nat, to: nat, shift: nat)
    requires to <= |tail| && shift + |tail| == |trades| && trades[shift..] == tail
    ensures CountLosses(tail, from, to) == CountLosses(trades, from + shift, to + shift)
  {
    if from < to {
      assert tail[to - 1] == trades[to - 1 + shift];
      CountTail(trades, tail, from, to - 1, shift);
    }
  }

  lemma RollsExactly(u: Setup, trades: seq<Trade>)
    requires trades != []
    ensures Loses(trades[|trades| - 1]) && RollingReached(u.cfg, Newest(trades, RECENT_TRADES)) <==> Rolls(u, trades)
  {
    var recent, w := Newest(trades, RECENT_TRADES), u.cfg.rollingLossWindow;
    if 0 < w <= |recent| { CountTail(trades, recent, |recent| - w, |recent|, |trades| - |recent|); }
  }

  // ------------------------------------------------------------------ windows

  /** The windows that nothing closes early. */
  datatype Rule = OnGiveback | OnSpike | OnStop

  /** The `i`-th observation opens a window by the rule. */
  ghost predicate Opens(u: Setup, seen: seq<Watch>, i: nat, rule: Rule)
    requires i < |seen|
  {
    var w, equities := seen[i], EquitiesIn(seen[..i + 1]);
    match rule
    case OnGiveback => w.SawCandle? && GivesBack(u, equities, w.equity)
    case OnSpike => w.SawCandle? && Spikes(u, equities, w.equity)
    case OnStop =>
      w.SawTrade? && w.trade.netPnl < 0.0 && w.trade.reason.ReadsAsStop() && u.span(u.cfg.stopLossCooldownCandles) > 0
  }

  /** When it closes: so many candles after the candle's close or the trade's exit. */
  function End(u: Setup, w: Watch, rule: Rule): int
    requires if rule.OnStop? then w.SawTrade? else w.SawCandle?
  {
    match rule
    case OnGiveback => w.candle.closeTime + u.span(u.cfg.givebackCooldownCandles)
    case OnSpike => w.candle.closeTime + u.span(u.cfg.postSpikeCooldownCandles)
    case OnStop => w.trade.exitTime + u.span(u.cfg.stopLossCooldownCandles)
  }

  ghost predicate Holding(u: Setup, seen: seq<Watch>, i: nat, rule: Rule, time: int)
    requires i < |seen|
  {
    Opens(u, seen, i, rule) && time < End(u, seen[i], rule)
  }

  ghost predicate Open(u: Setup, seen: seq<Watch>, rule: Rule, time: int)
  {
    exists i :: 0 <= i < |seen| && Holding(u, seen, i, rule, time)
  }

  /** A loss after these trades opens a window until `end`, by the streak rule or the rolling one. */
  ghost predicate LossUntil(u: Setup, trades: seq<Trade>, exit: int, end: int)
  {
    var c := u.cfg;
    || (Streak(u, trades)
        && end == exit + u.span(if c.lossStreakEnabled then c.lossStreakCooldownCandles else c.lossCooldownCandles))
    || (Rolls(u, trades) && end == exit + u.span(c.rollingLossCooldownCandles))
  }

  ghost predicate OpensOnLoss(u: Setup, seen: seq<Watch>, i: nat, end: int)
    requires i < |seen|
  {
    seen[i].SawTrade? && LossUntil(u, TradesIn(seen[..i + 1]), seen[i].trade.exitTime, end)
  }

  /** No later trade was won at the end of the window or after it. */
  ghost predicate NotWonOver(seen: seq<Watch>, i: nat, end: int)
  {
    forall j :: i < j < |seen| && seen[j].SawTrade? && seen[j].trade.netPnl >= 0.0 ==> seen[j].trade.exitTime < end
  }

  ghost predicate HoldingOnLoss(u: Setup, seen: seq<Watch>, i: nat, end: int, time: int)
    requires i < |seen|
  {
    OpensOnLoss(u, seen, i, end) && time < end && NotWonOver(seen, i, end)
  }

  ghost predicate OpenOnLoss(u: Setup, seen: seq<Watch>, time: int)
  {
    exists i, end :: 0 <= i < |seen| && HoldingOnLoss(u, seen, i, end, time)
  }

  /** Some window is open at this time. */
  ghost predicate Paused(u: Setup, seen: seq<Watch>, time: int)
  {
    OpenOnLoss(u, seen, time) || exists rule :: Open(u, seen, rule, time)
  }

  // ------------------------------------------------------------------ each cooldown is its windows

  lemma UptoKept(past: seq<Watch>, w: Watch, i: nat)
    requires i <= |past|
    ensures i < |past| ==> (past + [w])[i] == past[i] && (past + [w])[..i + 1] == past[..i + 1]
    ensures i == |past| ==> (past + [w])[i] == w && (past + [w])[..i + 1] == past + [w]
  {
  }

  lemma HoldingKept(u: Setup, past: seq<Watch>, w: Watch, i: nat, rule: Rule, time: int)
    requires i < |past|
    ensures Holding(u, past + [w], i, rule, time) <==> Holding(u, past, i, rule, time)
  {
    UptoKept(past, w, i);
  }

  /** A window that is open after one more observation was open before it or is opened by it. */
  lemma OneMoreWindow(u: Setup, past: seq<Watch>, w: Watch, rule: Rule, time: int)
    ensures Open(u, past + [w], rule, time) <==>
      Open(u, past, rule, time) || Holding(u, past + [w], |past|, rule, time)
  {
    var seen := past + [w];
    forall i | 0 <= i < |past| ensures Holding(u, seen, i, rule, time) <==> Holding(u, past, i, rule, time) {
      HoldingKept(u, past, w, i, rule, time);
    }
  }

  function CooldownOf(k: Cooldowns, rule: Rule): int
  {
    match rule
    case OnGiveback => k.giveback
    case OnSpike => k.spike
    case OnStop => k.stop
  }

  lemma CandleCools(u: Setup, k: Cooldowns, equities: seq<(int, real)>, c: Candle, equity: real, rule: Rule, time: int)
    ensures CooldownOf(AfterCandle(u, k, equities, c, equity), rule) > time <==>
      || CooldownOf(k, rule) > time
      || (rule.OnGiveback? && GivesBack(u, equities, equity) && time < End(u, SawCandle(c, equity), rule))
      || (rule.OnSpike? && Spikes(u, equities, equity) && time < End(u, SawCandle(c, equity), rule))
  {
    GivesExactly(u, equities, equity);
    SpikesExactly(u, equities, equity);
  }

  lemma TradeCools(u: Setup, k: Cooldowns, trades: seq<Trade>, t: Trade, rule: Rule, time: int)
    ensures CooldownOf(AfterTrade(u, k, trades, t), rule) > time <==>
      || CooldownOf(k, rule) > time
      || (rule.OnStop? && t.netPnl < 0.0 && t.reason.ReadsAsStop() && u.span(u.cfg.stopLossCooldownCandles) > 0
          && time < End(u, SawTrade(t), rule))
  {
  }

  /** What one observation does to a cooldown. */
  lemma OneMoreCooldown(u: Setup, past: seq<Watch>, w: Watch, rule: Rule, time: int)
    ensures CooldownOf(Cooled(u, past + [w]), rule) > time <==>
      CooldownOf(Cooled(u, past), rule) > time || Holding(u, past + [w], |past|, rule, time)
  {
    var k := Cooled(u, past);
    SeenSnoc(u, past, w);
    UptoKept(past, w, |past|);
    match w
    case SawCandle(c, equity) => CandleCools(u, k, EquitiesIn(past) + [(c.closeTime, equity)], c, equity, rule, time);
    case SawTrade(t) => TradeCools(u, k, TradesIn(past) + [t], t, rule, time);
    case Tried(_, _, _) =>
  }

  /** The giveback, spike and stop cooldowns run at a time exactly when one of their windows is open then. */
  lemma {:induction false} CooldownIsWindows(u: Setup, seen: seq<Watch>, rule: Rule, time: int)
    requires time >= 0
    ensures CooldownOf(Cooled(u, seen), rule) > time <==> Open(u, seen, rule, time)
  {
    if seen != [] {
      var past, w := seen[..|seen| - 1], seen[|seen| - 1];
      assert seen == past + [w];
      CooldownIsWindows(u, past, rule, time);
      OneMoreCooldown(u, past, w, rule, time);
      OneMoreWindow(u, past, w, rule, time);
    }
  }

  lemma HoldingOnLossKept(u: Setup, past: seq<Watch>, w: Watch, i: nat, end: int, time: int)
    requires i < |past|
    ensures HoldingOnLoss(u, past + [w], i, end, time) <==>
      HoldingOnLoss(u, past, i, end, time) && (w.SawTrade? && w.trade.netPnl >= 0.0 ==> w.trade.exitTime < end)
  {
    var seen := past + [w];
    UptoKept(past, w, i);
    forall j | i < j < |past| ensures seen[j] == past[j] { UptoKept(past, w, j); }
    assert seen[|past|] == w;
  }

  /** A later win closes the windows that have ended by its exit; one more loss may open some. */
  lemma OneMoreLossWindow(u: Setup, past: seq<Watch>, w: Watch, time: int)
    ensures OpenOnLoss(u, past + [w], time) <==>
      || OpenOnLoss(u, past, if w.SawTrade? && w.trade.netPnl >= 0.0 then MaxInt(time, w.trade.exitTime) else time)
      || exists end :: HoldingOnLoss(u, past + [w], |past|, end, time)
  {
    var seen, n := past + [w], |past|;
    var later := if w.SawTrade? && w.trade.netPnl >= 0.0 then MaxInt(time, w.trade.exitTime) else time;
    forall i, end | 0 <= i < n
      ensures HoldingOnLoss(u, seen, i, end, time) <==> HoldingOnLoss(u, past, i, end, later)
    {
      HoldingOnLossKept(u, past, w, i, end, time);
    }
    if OpenOnLoss(u, past, later) {
      var i, end :| 0 <= i < n && HoldingOnLoss(u, past, i, end, later);
      assert HoldingOnLoss(u, seen, i, end, time);
    }
    if OpenOnLoss(u, seen, time) {
      var i, end :| 0 <= i < |seen| && HoldingOnLoss(u, seen, i, end, time);
      if i < n { assert HoldingOnLoss(u, past, i, end, later); }
    }
  }

  /** The windows an observation opens. */
  lemma LossOpens(u: Setup, past: seq<Watch>, w: Watch, end: int, time: int)
    ensures HoldingOnLoss(u, past + [w], |past|, end, time) <==>
      w.SawTrade? && time < end && LossUntil(u, TradesIn(past + [w]), w.trade.exitTime, end)
  {
    UptoKept(past, w, |past|);
  }

  lemma LossCools(u: Setup, k: Cooldowns, trades: seq<Trade>, t: Trade, time: int)
    requires time >= 0 && trades != [] && trades[|trades| - 1] == t
    ensures AfterTrade(u, k, trades, t).loss > time <==>
      || k.loss > (if t.netPnl >= 0.0 then MaxInt(time, t.exitTime) else time)
      || exists end :: time < end && LossUntil(u, trades, t.exitTime, end)
  {
    StreakExactly(u, trades);
    RollsExactly(u, trades);
    var streak, rolling := u.Until(t.exitTime, StreakCandles(u.cfg)),
      u.Until(t.exitTime, u.cfg.rollingLossCooldownCandles);
    assert Streak(u, trades) ==> LossUntil(u, trades, t.exitTime, streak);
    assert Rolls(u, trades) ==> LossUntil(u, trades, t.exitTime, rolling);
  }

  lemma OneMoreLoss(u: Setup, past: seq<Watch>, w: Watch, time: int)
    requires time >= 0
    ensures Cooled(u, past + [w]).loss > time <==>
      || Cooled(u, past).loss > (if w.SawTrade? && w.trade.netPnl >= 0.0 then MaxInt(time, w.trade.exitTime) else time)
      || exists end :: HoldingOnLoss(u, past + [w], |past|, end, time)
  {
    SeenSnoc(u, past, w);
    forall end
      ensures HoldingOnLoss(u, past + [w], |past|, end, time) <==>
        w.SawTrade? && time < end && LossUntil(u, TradesIn(past + [w]), w.trade.exitTime, end)
    {
      LossOpens(u, past, w, end, time);
    }
    if w.SawTrade? { LossCools(u, Cooled(u, past), TradesIn(past) + [w.trade], w.trade, time); }
  }

  /** The loss cooldown likewise, with the windows a later win has not closed. */
  lemma {:induction false} LossCooldownIsWindows(u: Setup, seen: seq<Watch>, time: int)
    requires time >= 0
    ensures Cooled(u, seen).loss > time <==> OpenOnLoss(u, seen, time)
  {
    if seen != [] {
      var past, w := seen[..|seen| - 1], seen[|seen| - 1];
      assert seen == past + [w];
      var won := w.SawTrade? && w.trade.netPnl >= 0.0;
      LossCooldownIsWindows(u, past, if won then MaxInt(time, w.trade.exitTime) else time);
      OneMoreLoss(u, past, w, time);
      OneMoreLossWindow(u, past, w, time);
    }
  }

  lemma {:induction false} LossNotNegative(u: Setup, seen: seq<Watch>)
    ensures Cooled(u, seen).loss >= 0
  {
    if seen != [] { LossNotNegative(u, seen[..|seen| - 1]); }
  }

  /** Entries are blocked at a time if and only if one of the windows is open then. */
  lemma ActiveExactly(u: Setup, seen: seq<Watch>, time: int)
    ensures Cooled(u, seen).Active(time) <==> time < 0 || Paused(u, seen, time)
  {
    if time < 0 {
      LossNotNegative(u, seen);
    } else {
      LossCooldownIsWindows(u, seen, time);
      forall rule: Rule ensures CooldownOf(Cooled(u, seen), rule) > time <==> Open(u, seen, rule, time) {
        CooldownIsWindows(u, seen, rule, time);
      }
      var k := Cooled(u, seen);
      assert CooldownOf(k, OnGiveback) == k.giveback && CooldownOf(k, OnSpike) == k.spike;
      assert CooldownOf(k, OnStop) == k.stop;
    }
  }

  // ------------------------------------------------------------------ re-entry after a profit

  /** The `i`-th observation is the last profitable exit. */
  ghost predicate LastWin(seen: seq<Watch>, i: nat)
    requires i < |seen|
  {
    && seen[i].SawTrade? && seen[i].trade.netPnl >= 0.0
    && forall j :: i < j < |seen| && seen[j].SawTrade? ==> seen[j].trade.netPnl < 0.0
  }

  /** The decision would enter in the exit's direction again. */
  predicate EntersAgain(t: Trade, d: Decision) { d.signal.action.IsEntry() && d.signal.direction == Some(t.direction) }

  function PauseEnds(u: Setup, t: Trade): int { t.exitTime + u.reentrySpan(u.cfg.postProfitCooldownCandles) }

  /** The candle has come back from the exit price by the percentage or by the ATR multiple, whichever is more. */
  ghost predicate ComesBack(u: Setup, t: Trade, at: Candle, atr: Option<real>)
  {
    var pct, multiple := Max(u.cfg.postProfitPullbackPct, 0.0), Max(u.cfg.postProfitPullbackAtr, 0.0);
    var asked := Max(t.exitPrice * pct / 100.0, if atr.Some? then atr.value * multiple else 0.0);
    asked > 0.0 ==> if t.direction.Long? then at.low <= t.exitPrice - asked else at.high >= t.exitPrice + asked
  }

  /** A decision tried after the pause has seen the price come back. */
  ghost predicate SeesComeback(u: Setup, t: Trade, w: Watch)
  {
    && w.Tried? && w.decision.approved && EntersAgain(t, w.decision) && w.at.closeTime >= PauseEnds(u, t)
    && t.exitPrice > 0.0 && ComesBack(u, t, w.at, w.atr)
  }

  ghost predicate SeenSince(u: Setup, seen: seq<Watch>, i: nat)
    requires i < |seen| && seen[i].SawTrade?
  {
    exists j :: i < j < |seen| && SeesComeback(u, seen[i].trade, seen[j])
  }

  /** The last profit holds the decision back: its pause is not over, or the price has not come back yet. */
  ghost predicate HeldBackBy(u: Setup, seen: seq<Watch>, i: nat, d: Decision, at: Candle, atr: Option<real>)
    requires i < |seen| && seen[i].SawTrade?
  {
    var t := seen[i].trade;
    && EntersAgain(t, d)
    && (at.closeTime < PauseEnds(u, t)
        || (t.exitPrice > 0.0 && !ComesBack(u, t, at, atr) && !SeenSince(u, seen, i)))
  }

  ghost predicate HeldBack(u: Setup, seen: seq<Watch>, d: Decision, at: Candle, atr: Option<real>)
  {
    u.cfg.postProfitEnabled
    && exists i :: 0 <= i < |seen| && LastWin(seen, i) && HeldBackBy(u, seen, i, d, at, atr)
  }

  /** The guard remembers the last profit and whether the price has come back since. */
  ghost predicate Remembers(u: Setup, seen: seq<Watch>, i: nat)
    requires i < |seen|
  {
    var k := Cooled(u, seen);
    && seen[i].SawTrade? && k.direction == Some(seen[i].trade.direction) && k.exitPrice == seen[i].trade.exitPrice
    && k.reentry == PauseEnds(u, seen[i].trade) && (k.pulledBack <==> SeenSince(u, seen, i))
  }

  lemma ComebackIsPullback(u: Setup, k: Cooldowns, t: Trade, at: Candle, atr: Option<real>)
    requires k.exitPrice == t.exitPrice
    ensures k.PulledBack(u.cfg, t.direction, at, atr) <==> ComesBack(u, t, at, atr)
  {
  }

  lemma LastWinKept(u: Setup, past: seq<Watch>, w: Watch, i: nat)
    requires i < |past| && u.cfg.postProfitEnabled
    ensures LastWin(past + [w], i) <==> LastWin(past, i) && (w.SawTrade? ==> w.trade.netPnl < 0.0)
    ensures past[i].SawTrade? ==>
      (SeenSince(u, past + [w], i) <==> SeenSince(u, past, i) || SeesComeback(u, past[i].trade, w))
  {
    var seen := past + [w];
    assert seen[|past|] == w && seen[i] == past[i];
    forall j | 0 <= j < |past| ensures seen[j] == past[j] {}
  }

  lemma NewWin(u: Setup, past: seq<Watch>, w: Watch)
    requires u.cfg.postProfitEnabled && w.SawTrade? && w.trade.netPnl >= 0.0
    ensures Remembers(u, past + [w], |past|)
  {
    SeenSnoc(u, past, w);
  }

  lemma OldWin(u: Setup, past: seq<Watch>, w: Watch, i: nat)
    requires u.cfg.postProfitEnabled && i < |past| && Remembers(u, past, i)
    requires w.SawTrade? ==> w.trade.netPnl < 0.0
    ensures Remembers(u, past + [w], i)
  {
    SeenSnoc(u, past, w);
    LastWinKept(u, past, w, i);
    if w.Tried? { ComebackIsPullback(u, Cooled(u, past), past[i].trade, w.at, w.atr); }
  }

  /** With the guard on, it remembers the last profit, and nothing before the first one. */
  lemma {:induction false} ProfitRemembered(u: Setup, seen: seq<Watch>)
    requires u.cfg.postProfitEnabled
    ensures forall i :: 0 <= i < |seen| && LastWin(seen, i) ==> Remembers(u, seen, i)
    ensures (forall i :: 0 <= i < |seen| ==> !LastWin(seen, i)) ==> Cooled(u, seen).direction.None?
  {
    if seen != [] {
      var past, w := seen[..|seen| - 1], seen[|seen| - 1];
      assert seen == past + [w];
      ProfitRemembered(u, past);
      SeenSnoc(u, past, w);
      forall i | 0 <= i < |seen| && LastWin(seen, i) ensures Remembers(u, seen, i) {
        if i == |past| {
          NewWin(u, past, w);
        } else {
          LastWinKept(u, past, w, i);
          OldWin(u, past, w, i);
        }
      }
      if forall i :: 0 <= i < |seen| ==> !LastWin(seen, i) {
        assert !LastWin(seen, |past|);
        forall i | 0 <= i < |past| ensures !LastWin(past, i) {
          assert !LastWin(seen, i);
          LastWinKept(u, past, w, i);
        }
      }
    }
  }

  lemma HeldBackExactly(u: Setup, seen: seq<Watch>, d: Decision, at: Candle, atr: Option<real>)
    ensures Cooled(u, seen).Blocks(u.cfg, d.signal, at, atr) <==> HeldBack(u, seen, d, at, atr)
  {
    if u.cfg.postProfitEnabled {
      var k := Cooled(u, seen);
      ProfitRemembered(u, seen);
      forall i | 0 <= i < |seen| && LastWin(seen, i)
        ensures k.Blocks(u.cfg, d.signal, at, atr) <==> HeldBackBy(u, seen, i, d, at, atr)
      {
        ComebackIsPullback(u, k, seen[i].trade, at, atr);
      }
    }
  }

  /**
   * The guard as a whole, for everything it may have been told: a decision is blocked if and only if it is an entry
   * inside an open window, or an approved one that the last profit still holds back.
   */
  lemma BlockedExactly(u: Setup, seen: seq<Watch>, d: Decision, at: Candle, atr: Option<real>)
    ensures Cooled(u, seen).Blocked(u.cfg, d, at, atr) <==>
      || (d.signal.action.IsEntry() && (at.closeTime < 0 || Paused(u, seen, at.closeTime)))
      || (d.approved && HeldBack(u, seen, d, at, atr))
  {
    ActiveExactly(u, seen, at.closeTime);
    HeldBackExactly(u, seen, d, at, atr);
  }

  /** In particular: after a giveback every entry before the end of its window is blocked, whatever was seen since. */
  lemma GivebackBlocks(u: Setup, seen: seq<Watch>, i: nat, d: Decision, at: Candle, atr: Option<real>, high: real)
    requires i < |seen| && seen[i].SawCandle? && u.cfg.givebackEnabled && d.signal.action.IsEntry()
    requires Highest(u.peak, EquitiesIn(seen[..i + 1]), high) && high > 0.0
    requires seen[i].equity <= Times(1.0 - u.cfg.givebackThreshold, high)
    requires at.closeTime < seen[i].candle.closeTime + u.span(u.cfg.givebackCooldownCandles)
    ensures Cooled(u, seen).Blocked(u.cfg, d, at, atr)
  {
    assert Holding(u, seen, i, OnGiveback, at.closeTime);
    assert Open(u, seen, OnGiveback, at.closeTime);
    BlockedExactly(u, seen, d, at, atr);
  }
}
