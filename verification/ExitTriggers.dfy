/** Which exit, if any, a candle triggers for an open position (`_trigger_for_position`). */
module ExitTriggers {
  import opened Common
  import opened Market

  datatype Kind = StopLoss | TakeProfit | TimeStop

  datatype Trigger = Trigger(
    action: Action, price: real, reason: Reason, kind: Kind, level: real,
    gap: bool, ambiguous: bool, partialPct: Option<real>)

  function Exit(p: Position, price: real, reason: Reason, kind: Kind, level: real, gap: bool := false,
                ambiguous: bool := false, partialPct: Option<real> := None): Trigger
  {
    Trigger(ExitAction(p.direction), price, reason, kind, level, gap, ambiguous, partialPct)
  }

  predicate OpenedOn(p: Position, c: Candle)
  {
    var open := IntMeta(p.metadata, ENTRY_CANDLE_OPEN_TIME, -1);
    var interval := Get(p.metadata, ENTRY_CANDLE_INTERVAL);
    open >= 0 && open == c.openTime && (!Holds(interval) || IsRaw(interval, c.interval))
  }

  predicate BbPartialEnabled(m: Metadata)
  {
    && BoolMeta(m, BB_TRAIL_ENABLED, false)
    && BoolMeta(m, BB_TRAIL_ACTIVE, false)
    && !BoolMeta(m, BB_PARTIAL_CLOSE_EXECUTED, false)
    && BoolMeta(m, TP_IS_PARTIAL_CLOSE, false)
    && 0.0 < DecMeta(m, BB_TRAIL_PARTIAL_CLOSE_PCT, DecMeta(m, TP_PARTIAL_CLOSE_PCT, 0.0)) < 1.0
  }

  predicate DynamicExitsEnabled(m: Metadata)
  {
    if ATR_DYNAMIC_EXITS_ENABLED in m then BoolMeta(m, ATR_DYNAMIC_EXITS_ENABLED, false)
    else
      || BoolMeta(m, ATR_STOP_ENABLED, false) || BoolMeta(m, ATR_TAKE_PROFIT_ENABLED, false)
      || BoolMeta(m, ATR_TRAILING_ENABLED, false) || BoolMeta(m, BREAKEVEN_ENABLED, false)
      || BoolMeta(m, PROFIT_LOCK_ENABLED, false) || BoolMeta(m, GIVEBACK_ENABLED, false)
      || BoolMeta(m, BB_TRAIL_ENABLED, false)
  }

  /** The take-profit is only a first target: a trailing stop manages the exit. */
  predicate TrailingPriority(m: Metadata)
  {
    !(Get(m, TAKE_PROFIT_PRIORITY).Text? && Get(m, TAKE_PROFIT_PRIORITY).lower == "take_profit") &&
    (|| BoolMeta(m, PROFIT_LOCK_ENABLED, false)
     || BoolMeta(m, GIVEBACK_ACTIVE, false)
     || BoolMeta(m, BB_TRAIL_ACTIVE, false)
     || (DynamicExitsEnabled(m) && BoolMeta(m, ATR_TRAILING_ENABLED, false))
     || BoolMeta(m, TRAILING_STOP_ENABLED, false))
  }

  function Profit(p: Position, price: real): real
  {
    if p.direction.Long? then price - p.entryPrice else p.entryPrice - price
  }

  function CurrentR(p: Position, price: real): Option<real>
  {
    var initial := Decimal(p.metadata, INITIAL_STOP_LOSS);
    if initial.None? || initial.value <= 0.0 then None
    else
      var unit := Abs(p.entryPrice - initial.value);
      if unit <= 0.0 then None else Some(Profit(p, price) / unit)
  }

  datatype TimeStopRule = TimeStopRule(ms: int, onlyIfStagnant: bool, minR: real, extendIfStrong: bool)

  function TimeStopRuleOf(m: Metadata): TimeStopRule
  {
    TimeStopRule(IntMeta(m, TIME_STOP_MS, 0), BoolMeta(m, TIME_STOP_ONLY_IF_STAGNANT, true),
                 DecMeta(m, TIME_STOP_MIN_R, 0.0), BoolMeta(m, TIME_STOP_EXTEND_IF_STRONG, true))
  }

  /** A profitable candle in the position's direction extends the time window. */
  predicate StrongMomentum(p: Position, c: Candle)
  {
    if p.direction.Long? then c.close > c.open && c.close > p.entryPrice
    else c.close < c.open && c.close < p.entryPrice
  }

  function ApplyTimeStop(p: Position, c: Candle, rule: TimeStopRule, r: Option<real>): Option<Trigger>
  {
    if rule.ms <= 0 || c.closeTime < p.openedAt + rule.ms then None
    else if rule.onlyIfStagnant && (if r.Some? then r.value > rule.minR else Profit(p, c.close) > 0.0) then None
    else if rule.extendIfStrong && StrongMomentum(p, c) then None
    else Some(Exit(p, c.close, Stagnation, TimeStop, c.close))
  }

  function TimeStopTrigger(p: Position, c: Candle): Option<Trigger>
  {
    ApplyTimeStop(p, c, TimeStopRuleOf(p.metadata), CurrentR(p, c.close))
  }

  function PartialPct(m: Metadata): real { DecMeta(m, BB_TRAIL_PARTIAL_CLOSE_PCT, 0.60) }

  predicate BbManaged(m: Metadata) { !BoolMeta(m, BB_TRAIL_OBSERVE_ONLY, true) }

  predicate ForceClose(m: Metadata) { BbManaged(m) && BoolMeta(m, BB_TRAIL_FORCE_CLOSE, false) }

  predicate PartialAtTarget(m: Metadata) { BbManaged(m) && BbPartialEnabled(m) }

  /** The take-profit that can trigger: none while a trailing stop has priority. */
  function LiveTarget(p: Position): Option<real>
  {
    if !PartialAtTarget(p.metadata) && TrailingPriority(p.metadata) then None else p.takeProfit
  }

  /** What the trigger rules read off the position's metadata for one candle. */
  datatype View = View(
    sameCandle: bool,      // the position was entered on this candle
    forced: bool,          // the Bollinger ceiling was reached
    partialAtTarget: bool, partialPct: real,
    target: Option<real>,
    entryLow: real, entryHigh: real,
    timeStop: Option<Trigger>)

  function ViewOf(p: Position, c: Candle): View
  {
    View(OpenedOn(p, c), ForceClose(p.metadata), PartialAtTarget(p.metadata), PartialPct(p.metadata), LiveTarget(p),
         DecMeta(p.metadata, ENTRY_CANDLE_LOW, c.low), DecMeta(p.metadata, ENTRY_CANDLE_HIGH, c.high),
         TimeStopTrigger(p, c))
  }

  predicate LongStopHit(v: View, c: Candle, stop: Option<real>)
  {
    stop.Some? &&
    if !v.sameCandle then c.low <= stop.value
    else c.close <= stop.value || (c.low < v.entryLow && c.low <= stop.value)
  }

  predicate LongTargetHit(v: View, c: Candle)
  {
    v.target.Some? &&
    if !v.sameCandle then c.high >= v.target.value
    else c.close >= v.target.value || (c.high > v.entryHigh && c.high >= v.target.value)
  }

  predicate ShortStopHit(v: View, c: Candle, stop: Option<real>)
  {
    stop.Some? &&
    if !v.sameCandle then c.high >= stop.value
    else c.close >= stop.value || (c.high > v.entryHigh && c.high >= stop.value)
  }

  predicate ShortTargetHit(v: View, c: Candle)
  {
    v.target.Some? &&
    if !v.sameCandle then c.low <= v.target.value
    else c.close <= v.target.value || (c.low < v.entryLow && c.low <= v.target.value)
  }

  function TargetExit(p: Position, v: View, price: real, gap: bool): Trigger
    requires v.target.Some?
  {
    if v.partialAtTarget then
      Exit(p, price, PartialTarget, TakeProfit, v.target.value, gap := gap, partialPct := Some(v.partialPct))
    else Exit(p, price, TargetHit, TakeProfit, v.target.value, gap := gap)
  }

  /** The order in which exits are considered. */
  function Pick(p: Position, c: Candle, v: View): Option<Trigger>
  {
    var stop := p.stopLoss;
    if v.forced then
      var price := if v.sameCandle then c.close else c.open;
      Some(Exit(p, price, ForceCloseCeiling, StopLoss, price))
    else if p.direction.Long? then
      if !v.sameCandle && stop.Some? && c.open <= stop.value then
        Some(Exit(p, c.open, GapStop, StopLoss, stop.value, gap := true))
      else if !v.sameCandle && v.target.Some? && c.open >= v.target.value then
        Some(TargetExit(p, v, c.open, true))
      else if LongStopHit(v, c, stop) && LongTargetHit(v, c) then
        Some(Exit(p, stop.value, AmbiguousStop, StopLoss, stop.value, ambiguous := true))
      else if LongStopHit(v, c, stop) then
        Some(Exit(p, stop.value, StopHit, StopLoss, stop.value))
      else if LongTargetHit(v, c) then
        Some(TargetExit(p, v, v.target.value, false))
      else v.timeStop
    else
      if !v.sameCandle && stop.Some? && c.open >= stop.value then
        Some(Exit(p, c.open, GapStop, StopLoss, stop.value, gap := true))
      else if !v.sameCandle && v.target.Some? && c.open <= v.target.value then
        Some(TargetExit(p, v, c.open, true))
      else if ShortStopHit(v, c, stop) && ShortTargetHit(v, c) then
        Some(Exit(p, stop.value, AmbiguousStop, StopLoss, stop.value, ambiguous := true))
      else if ShortStopHit(v, c, stop) then
        Some(Exit(p, stop.value, StopHit, StopLoss, stop.value))
      else if ShortTargetHit(v, c) then
        Some(TargetExit(p, v, v.target.value, false))
      else v.timeStop
  }

  function TriggerFor(p: Position, c: Candle): Option<Trigger> { Pick(p, c, ViewOf(p, c)) }

  // ---------------------------------------------------------------- soundness

  /** `x` is no better than `y` as an exit price in this direction. */
  ghost predicate NoBetterExit(d: Direction, x: real, y: real) { if d.Long? then x <= y else x >= y }

  /** The candle trades at the stop or beyond it. */
  ghost predicate TradesThrough(d: Direction, c: Candle, stop: real)
  {
    if d.Long? then c.low <= stop else c.high >= stop
  }

  ghost predicate OpensThroughTarget(d: Direction, c: Candle, target: Option<real>)
  {
    target.Some? && NoBetterExit(d, target.value, c.open)
  }

  ghost predicate InRange(c: Candle, price: real) { c.low <= price <= c.high }

  /** How the entry candle hits a stop: by its close, or by a low (high) beyond the one seen at entry. */
  ghost predicate EntryStopHit(p: Position, c: Candle)
  {
    p.stopLoss.Some? &&
    var stop, m := p.stopLoss.value, p.metadata;
    if p.direction.Long? then c.close <= stop || (c.low < DecMeta(m, ENTRY_CANDLE_LOW, c.low) && c.low <= stop)
    else c.close >= stop || (c.high > DecMeta(m, ENTRY_CANDLE_HIGH, c.high) && c.high >= stop)
  }

  /** The stop lies beyond the whole candle, or else is not hit while the target lies short of the whole candle. */
  ghost predicate LevelsMissed(p: Position, c: Candle)
  {
    var target := LiveTarget(p);
    if p.direction.Long? then
      (p.stopLoss.Some? && p.stopLoss.value > c.high) || (!EntryStopHit(p, c) && target.Some? && target.value < c.low)
    else
      (p.stopLoss.Some? && p.stopLoss.value < c.low) || (!EntryStopHit(p, c) && target.Some? && target.value > c.high)
  }

  /**
   * The time stop fires on an aged position that is stagnant and not strong, as far as its rule asks, and at the
   * close.
   */
  lemma TimeStopAtClose(p: Position, c: Candle)
    ensures var t, rule, r := TimeStopTrigger(p, c), TimeStopRuleOf(p.metadata), CurrentR(p, c.close);
      && (t.Some? ==> t.value == Exit(p, c.close, Stagnation, TimeStop, c.close))
      && (t.Some? <==>
            rule.ms > 0 && c.closeTime - p.openedAt >= rule.ms
            && (rule.onlyIfStagnant && r.Some? ==> r.value <= rule.minR)
            && (rule.onlyIfStagnant && r.None? ==> Profit(p, c.close) <= 0.0)
            && (rule.extendIfStrong ==> !StrongMomentum(p, c)))
  {
  }

  /**
   * Exit prices are traded prices, except on the entry candle, where the hit tests look at
   * the close: there the price is outside the candle exactly when force-close is off and
   * the stop, or the target if the stop is not hit, was passed by the whole candle.
   */
  lemma TriggerPriceTraded(p: Position, c: Candle)
    requires c.WellFormed() && TriggerFor(p, c).Some?
    ensures InRange(c, TriggerFor(p, c).value.price)
      <==> !(OpenedOn(p, c) && !ForceClose(p.metadata) && LevelsMissed(p, c))
  {
    TimeStopAtClose(p, c);
    PickTraded(p, c, ViewOf(p, c));
  }

  lemma PickTraded(p: Position, c: Candle, v: View)
    requires c.WellFormed() && Pick(p, c, v).Some?
    requires v.timeStop.Some? ==> v.timeStop.value == Exit(p, c.close, Stagnation, TimeStop, c.close)
    requires v.target == LiveTarget(p)
    requires v.entryLow == DecMeta(p.metadata, ENTRY_CANDLE_LOW, c.low)
    requires v.entryHigh == DecMeta(p.metadata, ENTRY_CANDLE_HIGH, c.high)
    ensures InRange(c, Pick(p, c, v).value.price) <==> !(v.sameCandle && !v.forced && LevelsMissed(p, c))
  {
  }

  /**
   * On the entry candle the stop exit is taken, at the stop, exactly when it is hit; then the target does not matter.
   */
  lemma EntryCandleStopRule(p: Position, c: Candle)
    requires OpenedOn(p, c) && !ForceClose(p.metadata)
    ensures var t := TriggerFor(p, c);
      && (EntryStopHit(p, c) <==> t.Some? && t.value.kind.StopLoss?)
      && (EntryStopHit(p, c) ==> t.value.price == p.stopLoss.value && t.value.action == ExitAction(p.direction))
  {
    TimeStopAtClose(p, c);
    PickEntryStop(p, c, ViewOf(p, c));
  }

  lemma PickEntryStop(p: Position, c: Candle, v: View)
    requires v.sameCandle && !v.forced
    requires v.timeStop.Some? ==> v.timeStop.value == Exit(p, c.close, Stagnation, TimeStop, c.close)
    requires v.entryLow == DecMeta(p.metadata, ENTRY_CANDLE_LOW, c.low)
    requires v.entryHigh == DecMeta(p.metadata, ENTRY_CANDLE_HIGH, c.high)
    ensures var t := Pick(p, c, v);
      && (EntryStopHit(p, c) <==> t.Some? && t.value.kind.StopLoss?)
      && (EntryStopHit(p, c) ==> t.value.price == p.stopLoss.value && t.value.action == ExitAction(p.direction))
  {
  }

  /** Long from 100 with a stop at 95: the entry candle 90-94 "fills" the stop at 95, above its high. */
  lemma EntryCandleStopOutsideRange() returns (p: Position, c: Candle)
    ensures c.WellFormed() && TriggerFor(p, c).Some? && !InRange(c, TriggerFor(p, c).value.price)
  {
    var m: Metadata := map[ENTRY_CANDLE_OPEN_TIME := Num(0.0)];
    p := Position("B-BTC_USDT", Long, 1.0, 100.0, 1.0, 0, 0, "s", Some(95.0), None, 1.0, 1.0, m);
    c := Candle("B-BTC_USDT", "1m", 0, 59999, 92.0, 94.0, 90.0, 93.0, 1.0, 1.0, 1, true);
    assert Get(m, ENTRY_CANDLE_OPEN_TIME) == Num(0.0) && Get(m, ENTRY_CANDLE_INTERVAL) == Null;
    assert OpenedOn(p, c) && Get(m, BB_TRAIL_OBSERVE_ONLY) == Null;
    assert LongStopHit(ViewOf(p, c), c, p.stopLoss);
  }

  /** Stop exits are never better than the stop, target exits never worse than the target. */
  lemma TriggerPriceHonest(p: Position, c: Candle)
    requires c.WellFormed() && TriggerFor(p, c).Some? && !ForceClose(p.metadata)
    ensures var t := TriggerFor(p, c).value;
      && t.action == ExitAction(p.direction)
      && (t.kind.StopLoss? ==> p.stopLoss == Some(t.level) && NoBetterExit(p.direction, t.price, t.level))
      && (t.kind.TakeProfit? ==> LiveTarget(p) == Some(t.level) && NoBetterExit(p.direction, t.level, t.price))
      && (t.kind.TimeStop? ==> t.price == c.close)
      && t.price == (if t.gap then c.open else t.level)
      && (t.partialPct.Some? <==> t.kind.TakeProfit? && PartialAtTarget(p.metadata))
  {
    TimeStopAtClose(p, c);
    PickHonest(p, c, ViewOf(p, c));
  }

  lemma PickHonest(p: Position, c: Candle, v: View)
    requires c.WellFormed() && Pick(p, c, v).Some? && !v.forced
    requires v.timeStop.Some? ==> v.timeStop.value == Exit(p, c.close, Stagnation, TimeStop, c.close)
    ensures var t := Pick(p, c, v).value;
      && t.action == ExitAction(p.direction)
      && (t.kind.StopLoss? ==> p.stopLoss == Some(t.level) && NoBetterExit(p.direction, t.price, t.level))
      && (t.kind.TakeProfit? ==> v.target == Some(t.level) && NoBetterExit(p.direction, t.level, t.price))
      && (t.kind.TimeStop? ==> t.price == c.close)
      && t.price == (if t.gap then c.open else t.level)
      && (t.partialPct.Some? <==> t.kind.TakeProfit? && v.partialAtTarget)
  {
  }

  /**
   * A candle through the stop closes the position at the stop or worse, exactly unless it opened through the target.
   */
  lemma StopAlwaysHonoured(p: Position, c: Candle)
    requires c.WellFormed() && !OpenedOn(p, c) && !ForceClose(p.metadata)
    requires p.stopLoss.Some? && TradesThrough(p.direction, c, p.stopLoss.value)
    ensures TriggerFor(p, c).Some?
    ensures var t := TriggerFor(p, c).value;
      var gapTarget := OpensThroughTarget(p.direction, c, LiveTarget(p))
                       && !NoBetterExit(p.direction, c.open, p.stopLoss.value);
      && (t.kind.StopLoss? <==> !gapTarget)
      && (!gapTarget ==> NoBetterExit(p.direction, t.price, p.stopLoss.value))
      && (gapTarget ==> t.kind.TakeProfit? && t.price == c.open)
  {
    PickHonoursStop(p, c, ViewOf(p, c));
  }

  lemma PickHonoursStop(p: Position, c: Candle, v: View)
    requires c.WellFormed() && !v.sameCandle && !v.forced
    requires p.stopLoss.Some? && TradesThrough(p.direction, c, p.stopLoss.value)
    ensures Pick(p, c, v).Some?
    ensures var t := Pick(p, c, v).value;
      var gapTarget := OpensThroughTarget(p.direction, c, v.target)
                       && !NoBetterExit(p.direction, c.open, p.stopLoss.value);
      && (t.kind.StopLoss? <==> !gapTarget)
      && (!gapTarget ==> NoBetterExit(p.direction, t.price, p.stopLoss.value))
      && (gapTarget ==> t.kind.TakeProfit? && t.price == c.open)
  {
  }

  /** When stop and target are both touched inside the candle, the stop wins. */
  lemma AmbiguousCandleTakesStop(p: Position, c: Candle)
    requires c.WellFormed() && !OpenedOn(p, c) && !ForceClose(p.metadata)
    requires p.stopLoss.Some? && LiveTarget(p).Some?
    requires InRange(c, p.stopLoss.value) && InRange(c, LiveTarget(p).value)
    requires !NoBetterExit(p.direction, c.open, p.stopLoss.value) && !OpensThroughTarget(p.direction, c, LiveTarget(p))
    ensures TriggerFor(p, c) ==
      Some(Trigger(ExitAction(p.direction), p.stopLoss.value, AmbiguousStop, StopLoss, p.stopLoss.value, false, true,
                   None))
  {
    PickHonoursStop(p, c, ViewOf(p, c));
  }

  // ---------------------------------------------------------------- mirror image

  function Flip(d: Direction): Direction { if d.Long? then Short else Long }

  /** Reflect a price about `axis / 2`. */
  function ReflectOpt(axis: real, x: Option<real>): Option<real> { if x.Some? then Some(axis - x.value) else None }

  function MirrorCandle(axis: real, c: Candle): Candle
  {
    c.(open := axis - c.open, high := axis - c.low, low := axis - c.high, close := axis - c.close)
  }

  function MirrorValue(axis: real, v: Value): Value
  {
    match v
    case Num(x) => Num(axis - x)
    case Text(raw, lower, word, on, n) => Text(raw, lower, word, on, ReflectOpt(axis, n))
    case _ => v
  }

  /** An initial stop that is not positive counts as none, and stays as it is. */
  function MirrorInitial(axis: real, v: Value): Value
  {
    if AsDecimal(v).Some? && AsDecimal(v).value > 0.0 then MirrorValue(axis, v) else v
  }

  /** The initial stop as the rules use it. */
  function InitialStop(m: Metadata): Option<real>
  {
    var d := Decimal(m, INITIAL_STOP_LOSS);
    if d.Some? && d.value > 0.0 then d else None
  }

  /** The price-valued entries a trigger reads, with the candle's high and low exchanged. */
  function MirrorMeta(axis: real, m: Metadata): Metadata
  {
    m[ENTRY_CANDLE_LOW := MirrorValue(axis, Get(m, ENTRY_CANDLE_HIGH))]
     [ENTRY_CANDLE_HIGH := MirrorValue(axis, Get(m, ENTRY_CANDLE_LOW))]
     [INITIAL_STOP_LOSS := MirrorInitial(axis, Get(m, INITIAL_STOP_LOSS))]
  }

  function MirrorPosition(axis: real, p: Position): Position
  {
    p.(direction := Flip(p.direction), entryPrice := axis - p.entryPrice,
       stopLoss := ReflectOpt(axis, p.stopLoss), takeProfit := ReflectOpt(axis, p.takeProfit),
       metadata := MirrorMeta(axis, p.metadata))
  }

  function MirrorTrigger(axis: real, t: Option<Trigger>): Option<Trigger>
  {
    if t.None? then None
    else Some(t.value.(
      action := if t.value.action.ExitLong? then ExitShort else ExitLong,
      price := axis - t.value.price, level := axis - t.value.level))
  }

  function MirrorView(axis: real, v: View): View
  {
    v.(target := ReflectOpt(axis, v.target), entryLow := axis - v.entryHigh, entryHigh := axis - v.entryLow,
       timeStop := MirrorTrigger(axis, v.timeStop))
  }

  /** What the trigger rules can tell about mirrored metadata. */
  ghost predicate Mirrored(axis: real, m: Metadata, r: Metadata)
  {
    && Decimal(r, ENTRY_CANDLE_LOW) == ReflectOpt(axis, Decimal(m, ENTRY_CANDLE_HIGH))
    && Decimal(r, ENTRY_CANDLE_HIGH) == ReflectOpt(axis, Decimal(m, ENTRY_CANDLE_LOW))
    && (InitialStop(m).None? || InitialStop(m).value < axis ==> InitialStop(r) == ReflectOpt(axis, InitialStop(m)))
    && (ATR_DYNAMIC_EXITS_ENABLED in r <==> ATR_DYNAMIC_EXITS_ENABLED in m)
    && forall k :: k != ENTRY_CANDLE_LOW && k != ENTRY_CANDLE_HIGH && k != INITIAL_STOP_LOSS ==> Get(r, k) == Get(m, k)
  }

  lemma MirrorMetaMirrors(axis: real, m: Metadata)
    ensures Mirrored(axis, m, MirrorMeta(axis, m))
  {
  }

  lemma MirrorSwitches(axis: real, m: Metadata, r: Metadata)
    requires Mirrored(axis, m, r)
    ensures (ForceClose(r), PartialAtTarget(r), PartialPct(r), TrailingPriority(r), TimeStopRuleOf(r))
         == (ForceClose(m), PartialAtTarget(m), PartialPct(m), TrailingPriority(m), TimeStopRuleOf(m))
  {
  }

  lemma MirrorTimeStop(axis: real, p: Position, q: Position, c: Candle, rule: TimeStopRule, r: Option<real>)
    requires q.direction == Flip(p.direction) && q.entryPrice == axis - p.entryPrice && q.openedAt == p.openedAt
    ensures ApplyTimeStop(q, MirrorCandle(axis, c), rule, r) == MirrorTrigger(axis, ApplyTimeStop(p, c, rule, r))
  {
  }

  lemma MirrorCurrentR(axis: real, p: Position, q: Position, price: real)
    requires q.direction == Flip(p.direction) && q.entryPrice == axis - p.entryPrice
    requires InitialStop(q.metadata) == ReflectOpt(axis, InitialStop(p.metadata))
    ensures CurrentR(q, axis - price) == CurrentR(p, price)
  {
    assert Profit(q, axis - price) == Profit(p, price);
  }

  lemma MirrorPickLong(axis: real, p: Position, c: Candle, v: View)
    requires p.direction.Long?
    ensures Pick(MirrorPosition(axis, p), MirrorCandle(axis, c), MirrorView(axis, v))
         == MirrorTrigger(axis, Pick(p, c, v))
  {
    MirrorHits(axis, p.stopLoss, c, v);
  }

  /** A stop or target is hit on one side exactly when its mirror image is hit on the other. */
  lemma MirrorHits(axis: real, stop: Option<real>, c: Candle, v: View)
    ensures var at, w := MirrorCandle(axis, c), MirrorView(axis, v);
      && (LongStopHit(w, at, ReflectOpt(axis, stop)) <==> ShortStopHit(v, c, stop))
      && (ShortStopHit(w, at, ReflectOpt(axis, stop)) <==> LongStopHit(v, c, stop))
      && (LongTargetHit(w, at) <==> ShortTargetHit(v, c)) && (ShortTargetHit(w, at) <==> LongTargetHit(v, c))
  {
  }

  lemma MirrorPickShort(axis: real, p: Position, c: Candle, v: View)
    requires p.direction.Short?
    ensures Pick(MirrorPosition(axis, p), MirrorCandle(axis, c), MirrorView(axis, v))
         == MirrorTrigger(axis, Pick(p, c, v))
  {
    MirrorHits(axis, p.stopLoss, c, v);
  }

  /** The mirrored position, with its metadata known only through `Mirrored`. */
  ghost predicate Reflects(axis: real, p: Position, q: Position)
  {
    && q.direction == Flip(p.direction) && q.entryPrice == axis - p.entryPrice && q.openedAt == p.openedAt
    && q.takeProfit == ReflectOpt(axis, p.takeProfit)
    && Mirrored(axis, p.metadata, q.metadata)
  }

  lemma MirrorViews(axis: real, p: Position, q: Position, c: Candle)
    requires Reflects(axis, p, q)
    requires InitialStop(p.metadata).Some? ==> InitialStop(p.metadata).value < axis
    ensures ViewOf(q, MirrorCandle(axis, c)) == MirrorView(axis, ViewOf(p, c))
  {
    MirrorSwitches(axis, p.metadata, q.metadata);
    MirrorCurrentR(axis, p, q, c.close);
    MirrorTimeStop(axis, p, q, c, TimeStopRuleOf(p.metadata), CurrentR(p, c.close));
    assert OpenedOn(q, MirrorCandle(axis, c)) == OpenedOn(p, c);
  }

  /**
   * Shorts are treated exactly as reflected longs, and the other way round. The axis only
   * has to keep the initial stop a positive price on both sides.
   */
  lemma LongShortMirror(axis: real, p: Position, c: Candle)
    requires InitialStop(p.metadata).Some? ==> InitialStop(p.metadata).value < axis
    ensures TriggerFor(MirrorPosition(axis, p), MirrorCandle(axis, c)) == MirrorTrigger(axis, TriggerFor(p, c))
  {
    var q := MirrorPosition(axis, p);
    MirrorMetaMirrors(axis, p.metadata);
    MirrorViews(axis, p, q, c);
    if p.direction.Long? { MirrorPickLong(axis, p, c, ViewOf(p, c)); }
      else { MirrorPickShort(axis, p, c, ViewOf(p, c)); }
  }
}
