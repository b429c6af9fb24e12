/**
 * The exit rule of a position, stated once for both directions and from the position and the
 * candle alone; every trigger decision is the rule's.
 */
module ExitRules {
  import opened Common
  import opened Market
  import opened ExitTriggers

  /** The end of the candle's range a stop waits at, and the one a target waits at. */
  function Worst(d: Direction, c: Candle): real { if d.Long? then c.low else c.high }

  function Best(d: Direction, c: Candle): real { if d.Long? then c.high else c.low }

  // ------------------------------------------------------------------ the target in force

  /** The Bollinger trail manages the position and is to close part of it at the target, which it has not done yet. */
  ghost predicate ClosesPartly(m: Metadata)
  {
    var share := DecMeta(m, BB_TRAIL_PARTIAL_CLOSE_PCT, DecMeta(m, TP_PARTIAL_CLOSE_PCT, 0.0));
    && !BoolMeta(m, BB_TRAIL_OBSERVE_ONLY, true) && !BoolMeta(m, BB_PARTIAL_CLOSE_EXECUTED, false)
    && BoolMeta(m, BB_TRAIL_ENABLED, false) && BoolMeta(m, BB_TRAIL_ACTIVE, false)
    && BoolMeta(m, TP_IS_PARTIAL_CLOSE, false) && 0.0 < share < 1.0
  }

  /** Some trailing stop is to make the exit, and nothing says that the target comes first. */
  ghost predicate TrailComesFirst(m: Metadata)
  {
    var priority := Get(m, TAKE_PROFIT_PRIORITY);
    && !(priority.Text? && priority.lower == "take_profit")
    && (|| BoolMeta(m, PROFIT_LOCK_ENABLED, false) || BoolMeta(m, GIVEBACK_ACTIVE, false)
        || BoolMeta(m, BB_TRAIL_ACTIVE, false) || BoolMeta(m, TRAILING_STOP_ENABLED, false)
        || (BoolMeta(m, ATR_TRAILING_ENABLED, false)
            && (ATR_DYNAMIC_EXITS_ENABLED in m ==> BoolMeta(m, ATR_DYNAMIC_EXITS_ENABLED, false))))
  }

  /** The target the position can be closed at. */
  ghost function TargetInForce(p: Position): Option<real>
  {
    if TrailComesFirst(p.metadata) && !ClosesPartly(p.metadata) then None else p.takeProfit
  }

  // ------------------------------------------------------------------ what a candle reaches

  /**
   * The stop is reached by the open or the range of a later candle. On the entry candle it takes the close, or a range
   * that has widened since the entry.
   */
  ghost predicate StopReached(p: Position, c: Candle)
  {
    p.stopLoss.Some? &&
    var d, stop, worst := p.direction, p.stopLoss.value, Worst(p.direction, c);
    var seen := DecMeta(p.metadata, if d.Long? then ENTRY_CANDLE_LOW else ENTRY_CANDLE_HIGH, worst);
    if OpenedOn(p, c) then
      NoBetterExit(d, c.close, stop) || (NoBetterExit(d, worst, stop) && worst != seen && NoBetterExit(d, worst, seen))
    else NoBetterExit(d, c.open, stop) || NoBetterExit(d, worst, stop)
  }

  ghost predicate TargetReached(p: Position, c: Candle)
  {
    TargetInForce(p).Some? &&
    var d, target, best := p.direction, TargetInForce(p).value, Best(p.direction, c);
    var seen := DecMeta(p.metadata, if d.Long? then ENTRY_CANDLE_HIGH else ENTRY_CANDLE_LOW, best);
    if OpenedOn(p, c) then
      NoBetterExit(d, target, c.close)
      || (NoBetterExit(d, target, best) && best != seen && NoBetterExit(d, seen, best))
    else NoBetterExit(d, target, c.open) || NoBetterExit(d, target, best)
  }

  /** A later candle opens at the stop or beyond it. */
  ghost predicate GapsStop(p: Position, c: Candle)
  {
    !OpenedOn(p, c) && p.stopLoss.Some? && NoBetterExit(p.direction, c.open, p.stopLoss.value)
  }

  ghost predicate GapsTarget(p: Position, c: Candle)
  {
    !OpenedOn(p, c) && TargetInForce(p).Some? && NoBetterExit(p.direction, TargetInForce(p).value, c.open)
  }

  /** The position is old enough and, as far as its entries ask for it, stagnant and not strong. */
  ghost predicate TimeUp(p: Position, c: Candle)
  {
    var m, ms, gain := p.metadata, IntMeta(p.metadata, TIME_STOP_MS, 0), p.direction.Sign() * (c.close - p.entryPrice);
    var initial := DecMeta(m, INITIAL_STOP_LOSS, 0.0);
    && ms > 0 && c.closeTime - p.openedAt >= ms
    && (BoolMeta(m, TIME_STOP_ONLY_IF_STAGNANT, true) ==>
          gain <= if initial > 0.0 && initial != p.entryPrice then
                    Times(DecMeta(m, TIME_STOP_MIN_R, 0.0), Abs(p.entryPrice - initial))
                  else 0.0)
    && !(BoolMeta(m, TIME_STOP_EXTEND_IF_STRONG, true) && gain > 0.0 && p.direction.Sign() * (c.close - c.open) > 0.0)
  }

  /** The Bollinger trail demands an exit whatever the price. */
  ghost predicate Forced(m: Metadata)
  {
    !BoolMeta(m, BB_TRAIL_OBSERVE_ONLY, true) && BoolMeta(m, BB_TRAIL_FORCE_CLOSE, false)
  }

  /** A stop that is reached is taken, unless the candle opened beyond the target and not beyond the stop. */
  ghost predicate TakesStop(p: Position, c: Candle) { StopReached(p, c) && (GapsStop(p, c) || !GapsTarget(p, c)) }

  ghost predicate TakesTarget(p: Position, c: Candle) { TargetReached(p, c) && !TakesStop(p, c) }

  // ------------------------------------------------------------------ every trigger is the rule's

  lemma TargetIsLive(p: Position)
    ensures LiveTarget(p) == TargetInForce(p) && PartialAtTarget(p.metadata) == ClosesPartly(p.metadata)
    ensures ForceClose(p.metadata) == Forced(p.metadata)
  {
  }

  lemma TimeStopIsTimeUp(p: Position, c: Candle)
    ensures TimeStopTrigger(p, c) ==
      if TimeUp(p, c) then Some(Exit(p, c.close, Stagnation, TimeStop, c.close)) else None
  {
    var initial := Decimal(p.metadata, INITIAL_STOP_LOSS);
    if initial.Some? && initial.value > 0.0 && initial.value != p.entryPrice {
      RatioCompares(Profit(p, c.close), Abs(p.entryPrice - initial.value), DecMeta(p.metadata, TIME_STOP_MIN_R, 0.0));
    }
  }

  /** What the rules below say of a trigger. */
  ghost predicate Ruled(p: Position, c: Candle, t: Option<Trigger>)
  {
    && (t.None? <==> !TakesStop(p, c) && !TakesTarget(p, c) && !TimeUp(p, c))
    && (t.Some? ==> t.value.action == ExitAction(p.direction))
    && (TakesStop(p, c) ==>
          && t.value.kind == StopLoss && t.value.partialPct.None?
          && t.value.price == (if GapsStop(p, c) then c.open else p.stopLoss.value)
          && t.value.reason == (if GapsStop(p, c) then GapStop else if TargetReached(p, c) then AmbiguousStop
                                else StopHit))
    && (TakesTarget(p, c) ==>
          && t.value.kind == TakeProfit
          && t.value.price == (if GapsTarget(p, c) then c.open else TargetInForce(p).value)
          && t.value.reason == (if ClosesPartly(p.metadata) then PartialTarget else TargetHit)
          && t.value.partialPct == (if ClosesPartly(p.metadata) then
                                      Some(DecMeta(p.metadata, BB_TRAIL_PARTIAL_CLOSE_PCT, 0.60)) else None))
    && (!TakesStop(p, c) && !TakesTarget(p, c) && TimeUp(p, c) ==>
          t.value == Exit(p, c.close, Stagnation, TimeStop, c.close))
  }

  /**
   * The exit rule, for every position and every candle: a stop that is reached is taken, at the open if the candle
   * opened beyond it; else a target that is reached is; else the time stop, when it is up; and otherwise nothing. A
   * forced exit comes before all of them.
   */
  lemma TriggerRule(p: Position, c: Candle)
    ensures if Forced(p.metadata) then
        TriggerFor(p, c).Some? && TriggerFor(p, c).value.reason == ForceCloseCeiling
        && TriggerFor(p, c).value.action == ExitAction(p.direction) && TriggerFor(p, c).value.kind == StopLoss
        && TriggerFor(p, c).value.price == (if OpenedOn(p, c) then c.close else c.open)
        && TriggerFor(p, c).value.partialPct.None?
      else Ruled(p, c, TriggerFor(p, c))
  {
    TargetIsLive(p);
    TimeStopIsTimeUp(p, c);
    if !Forced(p.metadata) {
      if p.direction.Long? { LongRuled(p, c, ViewOf(p, c)); } else { ShortRuled(p, c, ViewOf(p, c)); }
    }
  }

  /** What the view of the metadata comes to. */
  ghost predicate Sees(v: View, p: Position, c: Candle)
  {
    && !v.forced && v.sameCandle == OpenedOn(p, c) && v.target == TargetInForce(p)
    && v.partialAtTarget == ClosesPartly(p.metadata)
    && v.partialPct == DecMeta(p.metadata, BB_TRAIL_PARTIAL_CLOSE_PCT, 0.60)
    && v.entryLow == DecMeta(p.metadata, ENTRY_CANDLE_LOW, c.low)
    && v.entryHigh == DecMeta(p.metadata, ENTRY_CANDLE_HIGH, c.high)
    && v.timeStop == if TimeUp(p, c) then Some(Exit(p, c.close, Stagnation, TimeStop, c.close)) else None
  }

  lemma LongRuled(p: Position, c: Candle, v: View)
    requires Sees(v, p, c) && p.direction.Long?
    ensures Ruled(p, c, Pick(p, c, v))
  {
  }

  lemma ShortRuled(p: Position, c: Candle, v: View)
    requires Sees(v, p, c) && p.direction.Short?
    ensures Ruled(p, c, Pick(p, c, v))
  {
  }

  /**
   * On a well-formed candle after the entry candle, with no forced exit: without a trade through the stop, a trade
   * through the target always exits, at the target or, if the candle opened beyond it, at the open.
   */
  lemma TargetAlwaysTaken(p: Position, c: Candle)
    requires c.WellFormed() && !OpenedOn(p, c) && !Forced(p.metadata)
    requires p.stopLoss.Some? ==> !TradesThrough(p.direction, c, p.stopLoss.value)
    ensures var t, target := TriggerFor(p, c), TargetInForce(p);
      var through := target.Some? && NoBetterExit(p.direction, target.value, Best(p.direction, c));
      && (t.Some? && t.value.kind == TakeProfit <==> through)
      && (through ==> t.value.price == if NoBetterExit(p.direction, target.value, c.open) then c.open else target.value)
      && (t.None? <==> !through && !TimeUp(p, c))
  {
    TriggerRule(p, c);
  }

  /** The entry candle is recognised by the opening time recorded with the entry and, if recorded, its interval. */
  lemma EntryCandleIsRecorded(p: Position, c: Candle, time: int, interval: Option<string>)
    requires Get(p.metadata, ENTRY_CANDLE_OPEN_TIME) == Num(time as real)
    requires Get(p.metadata, ENTRY_CANDLE_INTERVAL) == if interval.Some? then Plain(interval.value) else Null
    ensures OpenedOn(p, c) <==> 0 <= time == c.openTime && (interval in {None, Some(""), Some(c.interval)})
  {
    assert (time as real).Floor == time && (-(time as real)).Floor == -time;
  }

  /** What the safety guard takes for a stop exit: every stop that is not forced and every time stop, but no target. */
  lemma ExitReasonsRead(p: Position, c: Candle)
    requires TriggerFor(p, c).Some?
    ensures var t := TriggerFor(p, c).value;
      t.reason.ReadsAsStop() <==> !Forced(p.metadata) && (TakesStop(p, c) || !TakesTarget(p, c))
  {
    TriggerRule(p, c);
  }
}
