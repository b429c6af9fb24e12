/** Entry cooldowns after losses, givebacks and spikes (`_BacktestSafetyState`). */
module SafetyGuard {
  import opened Common
  import opened Market

  datatype Trade = Trade(
    pair: string, direction: Direction, quantity: real, entryPrice: real, exitPrice: real,
    entryTime: int, exitTime: int, grossPnl: real, fees: real, netPnl: real, reason: Reason)

  datatype SafetyConfig = SafetyConfig(
    stopLossCooldownCandles: int, maxConsecutiveLosses: int, lossCooldownCandles: int,
    lossStreakEnabled: bool, consecutiveLossLimit: int, lossStreakCooldownCandles: int,
    rollingLossWindow: int, rollingLossLimit: int, rollingLossCooldownCandles: int,
    givebackEnabled: bool, givebackThreshold: real, givebackCooldownCandles: int,
    postSpikeEnabled: bool, postSpikeLookback: nat, postSpikeGain: real, postSpikeCooldownCandles: int,
    postProfitEnabled: bool, postProfitCooldownCandles: int, postProfitPullbackAtr: real, postProfitPullbackPct: real)

  const RECENT_TRADES := 50

  // ------------------------------------------------------------------ list windows

  /** The newest `n` entries. */
  function Newest<T>(s: seq<T>, n: nat): seq<T> { if |s| <= n then s else s[|s| - n..] }

  /** Where Python's `s[-n:]` starts in a list of this length. */
  function TailStart(length: nat, n: int): nat
  {
    if n > 0 then (if n < length then length - n else 0) else if -n < length then -n else length
  }

  lemma NewestAppend<T>(s: seq<T>, x: T, n: nat)
    requires n > 0
    ensures var r := Newest(s, n) + [x];
      Newest(s + [x], n) == if |r| > n then r[1..] else r
  {
  }

  predicate Loses(t: Trade) { t.netPnl < 0.0 }

  /** Losing trades between two indices. */
  function CountLosses(s: seq<Trade>, from: nat, to: nat): nat
    requires to <= |s|
  {
    if from >= to then 0 else CountLosses(s, from, to - 1) + (if Loses(s[to - 1]) then 1 else 0)
  }

  /** Length of the run of losing trades that ends before index `n`. */
  function LossRun(s: seq<Trade>, n: nat): nat
    requires n <= |s|
  {
    if n == 0 || !Loses(s[n - 1]) then 0 else 1 + LossRun(s, n - 1)
  }

  /** Length of the run of losing trades at the end. */
  function TrailingLosses(s: seq<Trade>): nat { LossRun(s, |s|) }

  lemma {:induction false} LossRunKept(s: seq<Trade>, t: Trade, n: nat)
    requires n <= |s|
    ensures LossRun(s + [t], n) == LossRun(s, n)
  {
    if n > 0 { LossRunKept(s, t, n - 1); }
  }

  lemma TrailingLossesSnoc(s: seq<Trade>, t: Trade)
    ensures TrailingLosses(s + [t]) == if Loses(t) then TrailingLosses(s) + 1 else 0
  {
    LossRunKept(s, t, |s|);
  }

  lemma {:induction false} LossRunIsStreak(s: seq<Trade>, n: nat)
    requires n <= |s|
    ensures var k := LossRun(s, n);
      k <= n && (forall i :: n - k <= i < n ==> Loses(s[i])) && (k < n ==> !Loses(s[n - 1 - k]))
  {
    if n > 0 && Loses(s[n - 1]) { LossRunIsStreak(s, n - 1); }
  }

  /** The losing streak is the longest all-losing suffix. */
  lemma TrailingLossesIsStreak(s: seq<Trade>)
    ensures var k := TrailingLosses(s);
      && k <= |s| && (forall i :: |s| - k <= i < |s| ==> Loses(s[i]))
      && (k < |s| ==> !Loses(s[|s| - 1 - k]))
  {
    LossRunIsStreak(s, |s|);
  }

  /** The highest equity seen, not below the starting one. */
  function PeakOf(start: real, observed: seq<(int, real)>): real
  {
    if observed == [] then start else Max(PeakOf(start, observed[..|observed| - 1]), observed[|observed| - 1].1)
  }

  /** The peak bounds every observation and is one of them, or the start. */
  lemma {:induction false} PeakOfIsMaximum(start: real, observed: seq<(int, real)>)
    ensures var peak := PeakOf(start, observed);
      && start <= peak && (forall o :: o in observed ==> o.1 <= peak)
      && (peak == start || exists o :: o in observed && o.1 == peak)
  {
    if observed != [] {
      PeakOfIsMaximum(start, observed[..|observed| - 1]);
      assert observed == observed[..|observed| - 1] + [observed[|observed| - 1]];
    }
  }

  // ------------------------------------------------------------------ what arms a cooldown

  /** The streak rule looks at this many losses in a row. */
  function StreakLimit(c: SafetyConfig): int
  {
    if c.lossStreakEnabled then c.consecutiveLossLimit else c.maxConsecutiveLosses
  }

  function StreakCandles(c: SafetyConfig): int
  {
    if c.lossStreakEnabled then c.lossStreakCooldownCandles else c.lossCooldownCandles
  }

  predicate StreakReached(c: SafetyConfig, losses: nat) { StreakLimit(c) > 0 && losses >= StreakLimit(c) }

  predicate RollingReached(c: SafetyConfig, recent: seq<Trade>)
  {
    && c.lossStreakEnabled && |recent| >= c.rollingLossWindow
    && CountLosses(recent, TailStart(|recent|, c.rollingLossWindow), |recent|) >= c.rollingLossLimit
  }

  /**
   * The rolling rule judges the newest `window` trades of the whole history exactly when
   * that window fits the 50 trades kept; a larger window silently never triggers.
   */
  lemma RollingWindowFits(c: SafetyConfig, history: seq<Trade>)
    requires c.rollingLossWindow > 0
    ensures var w := c.rollingLossWindow; var recent := Newest(history, RECENT_TRADES);
      && (|recent| >= w <==> |history| >= w && w <= RECENT_TRADES)
      && (|recent| >= w ==> recent[TailStart(|recent|, w)..] == history[|history| - w..])
      && (w > RECENT_TRADES ==> !RollingReached(c, recent))
  {
  }

  predicate GivenBack(c: SafetyConfig, peak: real, equity: real)
  {
    c.givebackEnabled && peak > 0.0 && (peak - equity) / peak >= c.givebackThreshold
  }

  /** How many equities are kept. */
  function HistoryCap(c: SafetyConfig): nat { if c.postSpikeLookback + 1 > 100 then c.postSpikeLookback + 1 else 100 }

  /** Equity `lookback` observations back, counting the newest one. */
  function PastEquity(c: SafetyConfig, history: seq<(int, real)>): real
    requires c.postSpikeLookback < |history|
  {
    if c.postSpikeLookback == 0 then history[0].1 else history[|history| - c.postSpikeLookback].1
  }

  predicate SpikeSeen(c: SafetyConfig, history: seq<(int, real)>, equity: real)
  {
    && c.postSpikeEnabled && c.postSpikeLookback < |history|
    && PastEquity(c, history) > 0.0 && (equity - PastEquity(c, history)) / PastEquity(c, history) >= c.postSpikeGain
  }

  /** The look-back reads the equity exactly `lookback` observations from the end of all of them. */
  lemma PastEquityIsPast(c: SafetyConfig, observed: seq<(int, real)>)
    requires 0 < c.postSpikeLookback < |Newest(observed, HistoryCap(c))|
    ensures |observed| >= c.postSpikeLookback
    ensures PastEquity(c, Newest(observed, HistoryCap(c))) == observed[|observed| - c.postSpikeLookback].1
  {
  }

  function Latest(a: int, arm: bool, until: int): int { if arm then MaxInt(a, until) else a }

  // ------------------------------------------------------------------ the state as a function of what was seen

  /** How long so many candles last. */
  function Span(intervalMs: int): int -> int { (candles: int) => candles * intervalMs }

  /** The rules, how long candles last for the cooldowns and for re-entry, and the starting equity. */
  datatype Setup = Setup(cfg: SafetyConfig, span: int -> int, reentrySpan: int -> int, peak: real)
  {
    /** End of a cooldown of so many candles. */
    function Until(time: int, candles: int): int { time + span(candles) }

    predicate StopArmed(t: Trade) { Loses(t) && span(cfg.stopLossCooldownCandles) > 0 && t.reason.ReadsAsStop() }
  }

  /** What the guard is told: a candle with its equity, a trade, or a decision that wants to pass. */
  datatype Watch =
    | SawCandle(candle: Candle, equity: real)
    | SawTrade(trade: Trade)
    | Tried(decision: Decision, at: Candle, atr: Option<real>)

  datatype Cooldowns = Cooldowns(
    loss: int, stop: int, giveback: int, spike: int,
    direction: Option<Direction>, exitPrice: real, reentry: int, pulledBack: bool)
  {
    function Longest(): int { MaxInt(MaxInt(loss, stop), MaxInt(giveback, spike)) }

    predicate Active(timestamp: int) { timestamp < Longest() }

    /** Whether the price has come back far enough since the last profitable exit. */
    predicate PulledBack(c: SafetyConfig, d: Direction, at: Candle, atr: Option<real>)
    {
      var byPct := exitPrice * Max(c.postProfitPullbackPct, 0.0) / 100.0;
      var byAtr := (if atr.Some? then atr.value else 0.0) * Max(c.postProfitPullbackAtr, 0.0);
      var required := Max(byPct, byAtr);
      required <= 0.0 || if d.Long? then at.low <= exitPrice - required else at.high >= exitPrice + required
    }

    /** The signal would re-enter in the direction of the last profitable exit. */
    predicate Reenters(c: SafetyConfig, s: Signal)
    {
      c.postProfitEnabled && s.action.IsEntry() && s.direction.Some? && s.direction == direction
    }

    /** The post-profit guard's verdict: its cooldown is running, or no pullback has been seen up to this candle. */
    predicate Blocks(c: SafetyConfig, s: Signal, at: Candle, atr: Option<real>)
    {
      && Reenters(c, s)
      && (at.closeTime < reentry || (exitPrice > 0.0 && !pulledBack && !PulledBack(c, s.direction.value, at, atr)))
    }

    /** The pullback is seen now, and remembered. */
    predicate SeesPullback(c: SafetyConfig, s: Signal, at: Candle, atr: Option<real>)
    {
      Reenters(c, s) && at.closeTime >= reentry && exitPrice > 0.0 && PulledBack(c, s.direction.value, at, atr)
    }

    /** A cooldown is running against an entry, or the post-profit guard holds an approved one back. */
    predicate Blocked(c: SafetyConfig, d: Decision, at: Candle, atr: Option<real>)
    {
      (d.signal.action.IsEntry() && Active(at.closeTime)) || (d.approved && Blocks(c, d.signal, at, atr))
    }
  }

  function TradesIn(seen: seq<Watch>): seq<Trade>
  {
    if seen == [] then []
    else TradesIn(seen[..|seen| - 1]) + (if seen[|seen| - 1].SawTrade? then [seen[|seen| - 1].trade] else [])
  }

  function EquitiesIn(seen: seq<Watch>): seq<(int, real)>
  {
    if seen == [] then []
    else
      var w := seen[|seen| - 1];
      EquitiesIn(seen[..|seen| - 1]) + (if w.SawCandle? then [(w.candle.closeTime, w.equity)] else [])
  }

  /** The cooldowns after everything seen. */
  function Cooled(u: Setup, seen: seq<Watch>): Cooldowns
  {
    if seen == [] then Cooldowns(0, 0, 0, 0, None, 0.0, 0, false)
    else
      var past := seen[..|seen| - 1];
      AfterWatch(u, Cooled(u, past), EquitiesIn(past), TradesIn(past), seen[|seen| - 1])
  }

  /** One more observation, after these equities and trades. */
  function AfterWatch(u: Setup, k: Cooldowns, equities: seq<(int, real)>, trades: seq<Trade>, w: Watch): Cooldowns
  {
    if w.SawCandle? then AfterCandle(u, k, equities + [(w.candle.closeTime, w.equity)], w.candle, w.equity)
    else if w.SawTrade? then AfterTrade(u, k, trades + [w.trade], w.trade)
    else AfterTry(u, k, w.decision, w.at, w.atr)
  }

  function AfterCandle(u: Setup, k: Cooldowns, equities: seq<(int, real)>, c: Candle, equity: real): Cooldowns
  {
    var history := Newest(equities, HistoryCap(u.cfg));
    k.(giveback := Latest(k.giveback, GivenBack(u.cfg, PeakOf(u.peak, equities), equity),
                          u.Until(c.closeTime, u.cfg.givebackCooldownCandles)),
       spike := Latest(k.spike, SpikeSeen(u.cfg, history, equity),
                       u.Until(c.closeTime, u.cfg.postSpikeCooldownCandles)))
  }

  function AfterTrade(u: Setup, k: Cooldowns, trades: seq<Trade>, t: Trade): Cooldowns
  {
    Judged(u, k, TrailingLosses(trades), Newest(trades, RECENT_TRADES), t)
  }

  /** The cooldowns after a trade that makes so many losses in a row and these recent trades. */
  function Judged(u: Setup, k: Cooldowns, losses: nat, recent: seq<Trade>, t: Trade): Cooldowns
  {
    var c := u.cfg;
    if Loses(t) then
      var streak := Latest(k.loss, StreakReached(c, losses), u.Until(t.exitTime, StreakCandles(c)));
      k.(stop := Latest(k.stop, u.StopArmed(t), u.Until(t.exitTime, c.stopLossCooldownCandles)),
         loss := Latest(streak, RollingReached(c, recent), u.Until(t.exitTime, c.rollingLossCooldownCandles)))
    else
      var over := k.(loss := if t.exitTime >= k.loss then 0 else k.loss);
      if c.postProfitEnabled then
        over.(direction := Some(t.direction), exitPrice := t.exitPrice, pulledBack := false,
              reentry := t.exitTime + u.reentrySpan(c.postProfitCooldownCandles))
      else over
  }

  function AfterTry(u: Setup, k: Cooldowns, d: Decision, c: Candle, atr: Option<real>): Cooldowns
  {
    k.(pulledBack := k.pulledBack || (d.approved && k.SeesPullback(u.cfg, d.signal, c, atr)))
  }

  lemma TradesSnoc(seen: seq<Watch>, w: Watch)
    ensures TradesIn(seen + [w]) == if w.SawTrade? then TradesIn(seen) + [w.trade] else TradesIn(seen)
  {
    assert (seen + [w])[..|seen|] == seen;
  }

  lemma SeenSnoc(u: Setup, seen: seq<Watch>, w: Watch)
    ensures TradesIn(seen + [w]) == if w.SawTrade? then TradesIn(seen) + [w.trade] else TradesIn(seen)
    ensures EquitiesIn(seen + [w])
      == if w.SawCandle? then EquitiesIn(seen) + [(w.candle.closeTime, w.equity)] else EquitiesIn(seen)
    ensures Cooled(u, seen + [w]) == AfterWatch(u, Cooled(u, seen), EquitiesIn(seen), TradesIn(seen), w)
  {
    assert (seen + [w])[..|seen|] == seen;
  }

  /** Neither a candle nor a trade ends a cooldown that is still running then or later; a candle ends none at all. */
  lemma CooldownsOutlast(u: Setup, seen: seq<Watch>, w: Watch, time: int)
    requires Cooled(u, seen).Active(time) && (w.SawTrade? ==> time >= w.trade.exitTime)
    ensures Cooled(u, seen + [w]).Active(time)
  {
    SeenSnoc(u, seen, w);
  }

  // ------------------------------------------------------------------ the object

  ghost predicate CountsTrades(trades: seq<Trade>, losses: nat, recent: seq<Trade>)
  {
    losses == TrailingLosses(trades) && recent == Newest(trades, RECENT_TRADES)
  }

  ghost predicate CountsEquities(u: Setup, equities: seq<(int, real)>, peak: real, history: seq<(int, real)>)
  {
    (u.cfg.givebackEnabled ==> peak == PeakOf(u.peak, equities)) && history == Newest(equities, HistoryCap(u.cfg))
  }

  /** The counts and cooldowns are those of everything seen. */
  ghost predicate Summarises(u: Setup, seen: seq<Watch>, k: Cooldowns, losses: nat, recent: seq<Trade>, peak: real,
                             history: seq<(int, real)>)
  {
    CountsTrades(TradesIn(seen), losses, recent) && CountsEquities(u, EquitiesIn(seen), peak, history)
      && k == Cooled(u, seen)
  }

  lemma SummarisesCandle(u: Setup, seen: seq<Watch>, k: Cooldowns, losses: nat, recent: seq<Trade>, peak: real,
                         history: seq<(int, real)>, c: Candle, equity: real, peak': real, history': seq<(int, real)>)
    requires Summarises(u, seen, k, losses, recent, peak, history)
    requires CountsEquities(u, EquitiesIn(seen) + [(c.closeTime, equity)], peak', history')
    ensures Summarises(u, seen + [SawCandle(c, equity)], AfterCandle(u, k, EquitiesIn(seen) + [(c.closeTime, equity)],
                                                                     c, equity),
                       losses, recent, peak', history')
  {
    SeenSnoc(u, seen, SawCandle(c, equity));
  }

  lemma SummarisesTrade(u: Setup, seen: seq<Watch>, k: Cooldowns, losses: nat, recent: seq<Trade>, peak: real,
                        history: seq<(int, real)>, t: Trade, losses': nat, recent': seq<Trade>)
    requires Summarises(u, seen, k, losses, recent, peak, history)
    requires CountsTrades(TradesIn(seen) + [t], losses', recent')
    ensures Summarises(u, seen + [SawTrade(t)], Judged(u, k, losses', recent', t), losses', recent', peak, history)
  {
    SeenSnoc(u, seen, SawTrade(t));
  }

  lemma SummarisesTry(u: Setup, seen: seq<Watch>, k: Cooldowns, losses: nat, recent: seq<Trade>, peak: real,
                      history: seq<(int, real)>, d: Decision, c: Candle, atr: Option<real>)
    requires Summarises(u, seen, k, losses, recent, peak, history)
    ensures Summarises(u, seen + [Tried(d, c, atr)], AfterTry(u, k, d, c, atr), losses, recent, peak, history)
  {
    SeenSnoc(u, seen, Tried(d, c, atr));
  }

  class SafetyState {
    const u: Setup

    var peakEquity: real
    var consecutiveLosses: nat
    var recentTrades: seq<Trade>
    var equityHistory: seq<(int, real)>
    var cooldownUntil: int
    var stopCooldownUntil: int
    var givebackCooldownUntil: int
    var postSpikeCooldownUntil: int
    var postProfitDirection: Option<Direction>
    var postProfitExitPrice: real
    var postProfitCooldownUntil: int
    var pullbackSeen: bool

    /** Everything the guard was told. */
    ghost var seen: seq<Watch>

    function Now(): Cooldowns
      reads this
    {
      Cooldowns(cooldownUntil, stopCooldownUntil, givebackCooldownUntil, postSpikeCooldownUntil,
                postProfitDirection, postProfitExitPrice, postProfitCooldownUntil, pullbackSeen)
    }

    /**
     * The summaries and cooldowns are what they claim to be, for the whole of what was told. It is stated for every
     * list equal to that, so that only a proof that asserts `Summarises` looks inside.
     */
    ghost predicate Valid()
      reads this
    {
      forall told :: told == seen ==> Summarises(u, told, Now(), consecutiveLosses, recentTrades, peakEquity,
                                                 equityHistory)
    }

    constructor (cfg: SafetyConfig, intervalMs: int, reentryIntervalMs: int, peak: real)
      ensures Valid() && seen == [] && u == Setup(cfg, Span(intervalMs), Span(reentryIntervalMs), peak)
    {
      u := Setup(cfg, Span(intervalMs), Span(reentryIntervalMs), peak);
      peakEquity, consecutiveLosses, recentTrades, equityHistory := peak, 0, [], [];
      cooldownUntil, stopCooldownUntil, givebackCooldownUntil, postSpikeCooldownUntil := 0, 0, 0, 0;
      postProfitDirection, postProfitExitPrice, postProfitCooldownUntil, pullbackSeen := None, 0.0, 0, false;
      seen := [];
    }

    /** Append to the bounded equity history. */
    method RememberEquity(time: int, equity: real)
      requires CountsEquities(u, EquitiesIn(seen), peakEquity, equityHistory)
      modifies this`equityHistory, this`peakEquity
      ensures CountsEquities(u, EquitiesIn(seen) + [(time, equity)], peakEquity, equityHistory)
    {
      ghost var equities := EquitiesIn(seen) + [(time, equity)];
      NewestAppend(EquitiesIn(seen), (time, equity), HistoryCap(u.cfg));
      assert equities[..|equities| - 1] == EquitiesIn(seen);
      equityHistory := equityHistory + [(time, equity)];
      if |equityHistory| > HistoryCap(u.cfg) {
        equityHistory := equityHistory[1..];
      }
      if u.cfg.givebackEnabled {
        peakEquity := Max(peakEquity, equity);
      }
    }

    /** The giveback and spike cooldowns are armed by their rules. */
    method ApplyCandle(c: Candle, equity: real, ghost equities: seq<(int, real)>)
      requires CountsEquities(u, equities, peakEquity, equityHistory)
      modifies this`givebackCooldownUntil, this`postSpikeCooldownUntil
      ensures Now() == AfterCandle(u, old(Now()), equities, c, equity)
    {
      if GivenBack(u.cfg, peakEquity, equity) {
        givebackCooldownUntil := MaxInt(givebackCooldownUntil, u.Until(c.closeTime, u.cfg.givebackCooldownCandles));
      }
      if SpikeSeen(u.cfg, equityHistory, equity) {
        postSpikeCooldownUntil := MaxInt(postSpikeCooldownUntil, u.Until(c.closeTime, u.cfg.postSpikeCooldownCandles));
      }
    }

    /** A candle and its equity are remembered, and arm cooldowns by the rules. */
    method ObserveCandle(c: Candle, equity: real)
      requires Valid()
      modifies this`equityHistory, this`peakEquity, this`givebackCooldownUntil, this`postSpikeCooldownUntil, this`seen
      ensures Valid() && seen == old(seen) + [SawCandle(c, equity)]
    {
      ghost var k, peak, history := Now(), peakEquity, equityHistory;
      assert Summarises(u, seen, k, consecutiveLosses, recentTrades, peak, history);
      RememberEquity(c.closeTime, equity);
      SummarisesCandle(u, seen, k, consecutiveLosses, recentTrades, peak, history, c, equity, peakEquity,
                       equityHistory);
      ApplyCandle(c, equity, EquitiesIn(seen) + [(c.closeTime, equity)]);
      seen := seen + [SawCandle(c, equity)];
    }

    /** Append to the bounded list of recent trades. */
    method RememberTrade(t: Trade)
      requires CountsTrades(TradesIn(seen), consecutiveLosses, recentTrades)
      modifies this`recentTrades, this`consecutiveLosses
      ensures CountsTrades(TradesIn(seen) + [t], consecutiveLosses, recentTrades)
    {
      NewestAppend(TradesIn(seen), t, RECENT_TRADES);
      TrailingLossesSnoc(TradesIn(seen), t);
      recentTrades := recentTrades + [t];
      if |recentTrades| > RECENT_TRADES {
        recentTrades := recentTrades[1..];
      }
      consecutiveLosses := if Loses(t) then consecutiveLosses + 1 else 0;
    }

    /** A loss arms the stop, streak and rolling cooldowns; a win ends the loss cooldown if it is over. */
    method ApplyTrade(t: Trade)
      modifies this`cooldownUntil, this`stopCooldownUntil, this`postProfitDirection, this`postProfitExitPrice,
               this`postProfitCooldownUntil, this`pullbackSeen
      ensures Now() == Judged(u, old(Now()), consecutiveLosses, recentTrades, t)
    {
      if t.netPnl < 0.0 {
        if u.StopArmed(t) {
          stopCooldownUntil := MaxInt(stopCooldownUntil, u.Until(t.exitTime, u.cfg.stopLossCooldownCandles));
        }
        if StreakReached(u.cfg, consecutiveLosses) {
          cooldownUntil := MaxInt(cooldownUntil, u.Until(t.exitTime, StreakCandles(u.cfg)));
        }
        if RollingReached(u.cfg, recentTrades) {
          cooldownUntil := MaxInt(cooldownUntil, u.Until(t.exitTime, u.cfg.rollingLossCooldownCandles));
        }
      } else {
        if t.exitTime >= cooldownUntil {
          cooldownUntil := 0;
        }
        if u.cfg.postProfitEnabled {
          postProfitDirection, postProfitExitPrice := Some(t.direction), t.exitPrice;
          postProfitCooldownUntil := t.exitTime + u.reentrySpan(u.cfg.postProfitCooldownCandles);
          pullbackSeen := false;
        }
      }
    }

    /** A trade is counted, and arms or ends cooldowns by the rules. */
    method ObserveTrade(t: Trade)
      requires Valid()
      modifies this`recentTrades, this`consecutiveLosses, this`cooldownUntil, this`stopCooldownUntil, this`seen,
               this`postProfitDirection, this`postProfitExitPrice, this`postProfitCooldownUntil, this`pullbackSeen
      ensures Valid() && seen == old(seen) + [SawTrade(t)]
    {
      ghost var k, losses, recent := Now(), consecutiveLosses, recentTrades;
      assert Summarises(u, seen, k, losses, recent, peakEquity, equityHistory);
      RememberTrade(t);
      ghost var judged := Judged(u, k, consecutiveLosses, recentTrades, t);
      SummarisesTrade(u, seen, k, losses, recent, peakEquity, equityHistory, t, consecutiveLosses, recentTrades);
      ApplyTrade(t);
      seen := seen + [SawTrade(t)];
      assert Now() == judged;
    }

    /** `post_profit_reentry_reason`: re-entering needs the cooldown over and a pullback seen, which is remembered. */
    method ReentryBlocked(s: Signal, c: Candle, atr: Option<real>) returns (blocked: bool)
      modifies this`pullbackSeen
      ensures blocked == old(Now()).Blocks(u.cfg, s, c, atr)
      ensures pullbackSeen == (old(pullbackSeen) || old(Now()).SeesPullback(u.cfg, s, c, atr))
    {
      blocked := false;
      if Now().Reenters(u.cfg, s) {
        if c.closeTime < postProfitCooldownUntil {
          blocked := true;
        } else if !pullbackSeen && postProfitExitPrice > 0.0 {
          if Now().PulledBack(u.cfg, s.direction.value, c, atr) {
            pullbackSeen := true;
          } else {
            blocked := true;
          }
        }
      }
    }

    /** The two guards a decision has to pass before it is deferred. */
    method Try(d: Decision, c: Candle, atr: Option<real>) returns (blocked: bool)
      requires Valid()
      modifies this`pullbackSeen, this`seen
      ensures Valid() && seen == old(seen) + [Tried(d, c, atr)]
      ensures blocked == Cooled(u, old(seen)).Blocked(u.cfg, d, c, atr)
    {
      SummarisesTry(u, seen, Now(), consecutiveLosses, recentTrades, peakEquity, equityHistory, d, c, atr);
      blocked := false;
      if d.approved {
        blocked := ReentryBlocked(d.signal, c, atr);
      }
      if d.signal.action.IsEntry() && c.closeTime < Now().Longest() {
        blocked := true;
      }
      seen := seen + [Tried(d, c, atr)];
    }
  }
}
