/** Stop ratchets shared by every loop (`profit_protection.py`, `bollinger_trail_policy.py`). */
module TrailPolicies {
  import opened Common
  import opened Market

  datatype Giveback = Giveback(active: bool, stop: Option<real>, maxR: real)

  datatype GivebackRule = GivebackRule(
    activationR: real, lockFraction: real, minLockR: real, tightenAfterR: real, tightenFraction: real)

  function Points(d: Direction, entry: real, price: real): real { if d.Long? then price - entry else entry - price }

  /** How many R a giveback stop locks in after a best move of `maxR`. */
  function LockR(rule: GivebackRule, maxR: real): real
  {
    var lock := Clamp(rule.lockFraction, 0.05, 0.95);
    var tighten := Clamp(Max(rule.tightenFraction, lock), lock, 0.98);
    var base := Max(Max(rule.minLockR, 0.0), Times(maxR, lock));
    if maxR >= rule.tightenAfterR then Max(base, Times(maxR, tighten)) else base
  }

  /** A stop that keeps `lockR` of a best move, unless the current one is tighter; a short's has to be positive. */
  function Protecting(entry: real, unit: real, d: Direction, current: Option<real>, maxR: real, lockR: real,
                      activationR: real): Giveback
  {
    var raw := if d.Long? then entry + Times(unit, lockR) else entry - Times(unit, lockR);
    if maxR < Max(activationR, 0.0) || lockR <= 0.0 || (d.Short? && raw <= 0.0) then Giveback(false, None, maxR)
    else
      var stop :=
        if current.Some? && current.value > 0.0 then
          (if d.Long? then Max(raw, current.value) else Min(raw, current.value))
        else raw;
      if stop <= 0.0 then Giveback(false, None, maxR) else Giveback(true, Some(stop), maxR)
  }

  /** `compute_profit_giveback_stop`: protect part of the best move seen. */
  function GivebackStop(entry: real, unit: real, d: Direction, current: Option<real>, price: real, favorable: real,
                        previousMaxR: real, rule: GivebackRule): Giveback
  {
    if unit <= 0.0 || entry <= 0.0 then Giveback(false, None, previousMaxR)
    else
      var maxR := Max(Max(previousMaxR, Points(d, entry, price) / unit), Max(Points(d, entry, favorable) / unit, 0.0));
      Protecting(entry, unit, d, current, maxR, LockR(rule, maxR), rule.activationR)
  }

  datatype Band = Band(middle: real, upper: real, lower: real)

  datatype BbRule = BbRule(bufferMultiplier: real, activationR: real, stage2R: real, stage3R: real, forceCloseR: real)

  datatype BbTrail = BbTrail(active: bool, stop: Option<real>, stage: int, forceClose: bool)

  const MIN_PRICE := 0.00000001

  predicate ShouldActivate(p: Position, currentR: real, activationR: real, middle: real)
  {
    currentR >= activationR && if p.direction.Long? then middle > p.entryPrice else middle < p.entryPrice
  }

  function CandidateStop(middle: real, atr: real, multiplier: real, d: Direction): real
  {
    var buffer := atr * multiplier;
    if d.Long? then Max(middle - buffer, MIN_PRICE) else Max(middle + buffer, MIN_PRICE)
  }

  function RatchetStop(previous: Option<real>, candidate: real, d: Direction): real
  {
    if previous.None? then candidate
    else if d.Long? then Max(previous.value, candidate) else Min(previous.value, candidate)
  }

  function AdvanceStage(current: int, currentR: real, stage2R: real, stage3R: real): int
  {
    var stage := if current < 1 then 1 else if current > 3 then 3 else current;
    if currentR >= stage3R then 3
    else if currentR >= stage2R then (if stage < 2 then 2 else stage)
    else stage
  }

  /** `update_bb_trail`: the band-based stop, held still while the bands are squeezed. */
  function UpdateBbTrail(p: Position, currentR: real, band: Band, atr: real, rule: BbRule): BbTrail
  {
    var previous := Decimal(p.metadata, BB_TRAIL_STOP);
    var active := BoolMeta(p.metadata, BB_TRAIL_ACTIVE, false)
      || ShouldActivate(p, currentR, rule.activationR, band.middle);
    var stage := AdvanceStage(IntMeta(p.metadata, BB_TRAIL_STAGE, 1), currentR, rule.stage2R, rule.stage3R);
    var stop :=
      if active && band.upper - band.lower >= atr * 0.5 then
        Some(RatchetStop(previous, CandidateStop(band.middle, atr, rule.bufferMultiplier, p.direction), p.direction))
      else previous;
    BbTrail(active, if stop.Some? && stop.value <= 0.0 then None else stop, stage, currentR >= rule.forceCloseR)
  }

  /** The band stop itself only ratchets, and its stage never goes back. */
  lemma BbTrailRatchets(p: Position, currentR: real, band: Band, atr: real, rule: BbRule)
    ensures var t := UpdateBbTrail(p, currentR, band, atr, rule);
      var previous := Decimal(p.metadata, BB_TRAIL_STOP);
      && (BoolMeta(p.metadata, BB_TRAIL_ACTIVE, false) ==> t.active)
      && (t.stop.Some? ==> t.stop.value > 0.0)
      && (previous.Some? && t.stop.Some? ==>
            if p.direction.Long? then t.stop.value >= previous.value else t.stop.value <= previous.value)
      && (previous.Some? && previous.value > 0.0 ==> t.stop.Some?)
      && 1 <= t.stage <= 3
      && (currentR >= rule.stage3R ==> t.stage == 3) && (currentR >= rule.stage2R ==> t.stage >= 2)
      && (currentR < rule.stage2R && currentR < rule.stage3R && 1 <= IntMeta(p.metadata, BB_TRAIL_STAGE, 1) <= 3 ==>
            t.stage == IntMeta(p.metadata, BB_TRAIL_STAGE, 1))
      && (1 <= IntMeta(p.metadata, BB_TRAIL_STAGE, 1) <= 3 ==> t.stage >= IntMeta(p.metadata, BB_TRAIL_STAGE, 1))
  {
  }
}

/** `update_dynamic_atr_exits` and `_update_trailing_stop`. */
module StopManagement {
  import opened Common
  import opened Market
  import opened TrailPolicies
  import ExitTriggers

  /** The arguments of `update_dynamic_atr_exits`; metadata entries override most of them. */
  datatype ExitSettings = ExitSettings(
    stopMultiple: real, takeProfitMultiple: real, trailingMultiple: Option<real>,
    stopEnabled: bool, takeProfitEnabled: bool, trailingEnabled: bool, takeProfitMode: TargetMode,
    breakevenEnabled: bool, breakevenActivationR: real, breakevenOffsetR: real,
    profitLockEnabled: bool, profitLockActivationR: real, profitLockR: real,
    givebackEnabled: bool, giveback: GivebackRule,
    trailAfterREnabled: bool, trailActivationR: real,
    bbEnabled: bool, bb: BbRule, bbPartialAtTp: bool, bbPartialPct: real, bbObserveOnly: bool)

  datatype TargetMode = FixedTarget | EntryAtr | Ratchet | TrailingAtr | NoTarget

  function ModeOf(v: Value): TargetMode
  {
    match v
    case Null => NoTarget // the text of Python's None is "None"
    case Text(_, _, w, _, _) =>
      if w == "entry_atr" then EntryAtr else if w == "ratchet" then Ratchet
      else if w == "trailing_atr" then TrailingAtr else if w == "none" then NoTarget else FixedTarget
    case _ => FixedTarget
  }

  function ModeWord(mode: TargetMode): Value
  {
    match mode
    case FixedTarget => Plain("fixed")
    case EntryAtr => Plain("entry_atr")
    case Ratchet => Plain("ratchet")
    case TrailingAtr => Plain("trailing_atr")
    case NoTarget => Plain("none")
  }

  /** Metadata over arguments, then the multiples that make a feature pointless switch it off. */
  function Resolve(m: Metadata, a: ExitSettings): ExitSettings
  {
    var stopMultiple := DecMeta(m, ATR_STOP_MULTIPLE, a.stopMultiple);
    var targetMultiple := DecMeta(m, ATR_TAKE_PROFIT_MULTIPLE, a.takeProfitMultiple);
    var trailing := DecMeta(m, ATR_TRAILING_MULTIPLE, DecMeta(m, TRAILING_ATR_MULTIPLE,
      if a.trailingMultiple.Some? then a.trailingMultiple.value else stopMultiple));
    var targetEnabled := BoolMeta(m, ATR_TAKE_PROFIT_ENABLED, a.takeProfitEnabled) && targetMultiple > 0.0;
    ExitSettings(
      stopMultiple, targetMultiple, Some(if trailing <= 0.0 then stopMultiple else trailing),
      BoolMeta(m, ATR_STOP_ENABLED, a.stopEnabled) && stopMultiple > 0.0,
      targetEnabled,
      BoolMeta(m, ATR_TRAILING_ENABLED, a.trailingEnabled),
      if !targetEnabled then NoTarget
      else if ATR_TAKE_PROFIT_MODE in m then ModeOf(m[ATR_TAKE_PROFIT_MODE]) else a.takeProfitMode,
      BoolMeta(m, BREAKEVEN_ENABLED, a.breakevenEnabled),
      DecMeta(m, BREAKEVEN_ACTIVATION_R, a.breakevenActivationR),
      DecMeta(m, BREAKEVEN_OFFSET_R, a.breakevenOffsetR),
      BoolMeta(m, PROFIT_LOCK_ENABLED, a.profitLockEnabled),
      DecMeta(m, PROFIT_LOCK_ACTIVATION_R, a.profitLockActivationR),
      DecMeta(m, PROFIT_LOCK_R, a.profitLockR),
      BoolMeta(m, GIVEBACK_ENABLED, a.givebackEnabled),
      GivebackRule(
        DecMeta(m, GIVEBACK_ACTIVATION_R, a.giveback.activationR),
        DecMeta(m, GIVEBACK_LOCK_FRACTION, a.giveback.lockFraction),
        DecMeta(m, GIVEBACK_MIN_LOCK_R, a.giveback.minLockR),
        DecMeta(m, GIVEBACK_TIGHTEN_AFTER_R, a.giveback.tightenAfterR),
        DecMeta(m, GIVEBACK_TIGHTEN_FRACTION, a.giveback.tightenFraction)),
      BoolMeta(m, ATR_TRAIL_AFTER_R_ENABLED, a.trailAfterREnabled),
      DecMeta(m, ATR_TRAIL_ACTIVATION_R, a.trailActivationR),
      BoolMeta(m, BB_TRAIL_ENABLED, a.bbEnabled),
      BbRule(
        DecMeta(m, BB_TRAIL_BUFFER_MULTIPLIER, a.bb.bufferMultiplier),
        DecMeta(m, BB_TRAIL_ACTIVATION_R, a.bb.activationR),
        DecMeta(m, BB_TRAIL_STAGE2_R, a.bb.stage2R),
        DecMeta(m, BB_TRAIL_STAGE3_R, a.bb.stage3R),
        DecMeta(m, BB_TRAIL_FORCE_CLOSE_R, a.bb.forceCloseR)),
      BoolMeta(m, BB_TRAIL_PARTIAL_CLOSE_AT_TP, a.bbPartialAtTp),
      DecMeta(m, BB_TRAIL_PARTIAL_CLOSE_PCT, a.bbPartialPct),
      BoolMeta(m, BB_TRAIL_OBSERVE_ONLY, a.bbObserveOnly))
  }

  predicate AnyManagement(s: ExitSettings)
  {
    s.stopEnabled || s.takeProfitEnabled || s.breakevenEnabled || s.profitLockEnabled || s.givebackEnabled
      || s.bbEnabled
  }

  /** The update leaves the position alone. */
  predicate Skips(p: Position, c: Candle, atr: Option<real>, a: ExitSettings)
  {
    || atr.None? || atr.value <= 0.0
    || (!ExitTriggers.DynamicExitsEnabled(p.metadata)
        && !BoolMeta(p.metadata, BB_TRAIL_ENABLED, a.bbEnabled)
        && !BoolMeta(p.metadata, GIVEBACK_ENABLED, a.givebackEnabled))
    || p.openedAt > c.closeTime
    || !AnyManagement(Resolve(p.metadata, a))
  }

  // ------------------------------------------------------------------ adaptive R settings

  /** Noise and buffer factors of a trade profile. */
  function ProfileFactors(profile: string): (real, real)
  {
    if Mentions(profile, "momentum") || Mentions(profile, "ignition") then (0.75, 0.45)
    else if Mentions(profile, "breakout") || Mentions(profile, "runner") then (0.90, 0.60)
    else if Mentions(profile, "defensive") || Mentions(profile, "mean") then (0.80, 0.50)
    else if Mentions(profile, "trend") then (1.10, 0.85)
    else (1.00, 0.70)
  }

  predicate Mentions(text: string, word: string)
  {
    exists i :: 0 <= i <= |text| && word <= text[i..]
  }

  function ProfileWord(m: Metadata): string
  {
    if Holds(Get(m, ADAPTIVE_STOP_PROFILE)) then WordOf(Get(m, ADAPTIVE_STOP_PROFILE))
    else if Holds(Get(m, ATR_PROFILE)) then WordOf(Get(m, ATR_PROFILE))
    else if Holds(Get(m, TRADE_MODE)) then WordOf(Get(m, TRADE_MODE))
    else "balanced"
  }

  datatype RSettings = RSettings(breakevenR: real, lockActivationR: real, lockR: real)

  /** `_adaptive_stop_management_settings`: R thresholds that follow volatility. */
  function Adaptive(factors: (real, real), atr: real, unit: real, trailingDistance: real): RSettings
    requires unit > 0.0
  {
    var liveR := atr / unit;
    var trailingR := trailingDistance / unit;
    var breakevenR := Clamp(Times(liveR, factors.0), 0.30, 2.20);
    var activation := Clamp(Max(breakevenR + Times(liveR, factors.1), trailingR + liveR * 0.25), breakevenR, 4.00);
    RSettings(breakevenR, activation, Min(Max(0.0, activation - trailingR), activation * 0.70))
  }

  /** Adaptive thresholds stay in order, and a lock never demands more than 70% of its activation. */
  lemma AdaptiveOrdered(factors: (real, real), atr: real, unit: real, trailingDistance: real)
    requires unit > 0.0
    ensures var s := Adaptive(factors, atr, unit, trailingDistance);
      && 0.30 <= s.breakevenR <= 2.20
      && s.breakevenR <= s.lockActivationR <= 4.00
      && 0.0 <= s.lockR <= 0.70 * s.lockActivationR
      && s.lockR < s.lockActivationR
  {
  }

  // ------------------------------------------------------------------ R-based management stop

  /** Everything the stop rules use for one candle. */
  datatype Frame = Frame(
    direction: Direction, entry: real, close: real, favorable: real,
    unit: Option<real>, buffer: real, previousMaxR: real, s: ExitSettings)
  {
    function Profit(): real { if direction.Long? then close - entry else entry - close }

    function CurrentR(): real { if unit.Some? && unit.value > 0.0 then Profit() / unit.value else 0.0 }

    /** An R multiple in price terms; nothing without a usable R. */
    function InPrice(r: real): real { if Truthy(unit) then r * unit.value else 0.0 }

    /** A protected profit is only placed where the price has already passed it. */
    function Offset(enabled: bool, activationR: real, r: real): Option<real>
    {
      if enabled && CurrentR() >= activationR && Profit() > Max(InPrice(r), buffer)
      then Some(Max(InPrice(r), buffer)) else None
    }

    function BreakevenOffset(): Option<real> { Offset(s.breakevenEnabled, s.breakevenActivationR, s.breakevenOffsetR) }

    function LockOffset(): Option<real> { Offset(s.profitLockEnabled, s.profitLockActivationR, s.profitLockR) }

    function AtOffset(offset: real): real { if direction.Long? then entry + offset else entry - offset }
  }

  datatype StopKind = AtrStop | BreakevenStop | ProfitLockStop | GivebackKind | BbStop

  function KindWord(k: StopKind): Value
  {
    match k
    case AtrStop => Plain("atr")
    case BreakevenStop => Plain("breakeven")
    case ProfitLockStop => Plain("profit_lock")
    case GivebackKind => Plain("profit_giveback")
    case BbStop => Plain("bb_trail")
  }

  datatype Managed = Managed(stop: Option<real>, kind: StopKind)

  predicate Tighter(d: Direction, x: real, y: real) { if d.Long? then x > y else x < y }

  function Improve(d: Direction, m: Managed, stop: Option<real>, kind: StopKind): Managed
  {
    if stop.Some? && (m.stop.None? || Tighter(d, stop.value, m.stop.value)) then Managed(stop, kind) else m
  }

  function AtOffsetOpt(f: Frame, offset: Option<real>): Option<real>
  {
    if offset.Some? then Some(f.AtOffset(offset.value)) else None
  }

  /** Breakeven, then profit lock. */
  function ProtectedStop(f: Frame): Managed
  {
    var breakeven := AtOffsetOpt(f, f.BreakevenOffset());
    Improve(f.direction, Managed(breakeven, if breakeven.Some? then BreakevenStop else AtrStop),
            AtOffsetOpt(f, f.LockOffset()), ProfitLockStop)
  }

  function GivebackOf(f: Frame): Option<Giveback>
  {
    if f.s.givebackEnabled && f.unit.Some? && f.unit.value > 0.0 then
      Some(GivebackStop(f.entry, f.unit.value, f.direction, ProtectedStop(f).stop, f.close, f.favorable,
                        f.previousMaxR, f.s.giveback))
    else None
  }

  function ManagedStop(f: Frame): Managed
  {
    var g := GivebackOf(f);
    if g.Some? && g.value.active then Improve(f.direction, ProtectedStop(f), g.value.stop, GivebackKind)
    else ProtectedStop(f)
  }

  // ------------------------------------------------------------------ combining stops

  /** A computation that may raise. */
  datatype Outcome<+T> = Ok(value: T) | Raises

  function Tightest(d: Direction, x: real, y: real): real { if d.Long? then Max(x, y) else Min(x, y) }

  function TrailingOn(f: Frame): bool
  {
    if f.s.trailAfterREnabled then f.CurrentR() >= f.s.trailActivationR else f.s.trailingEnabled
  }

  function BestPrice(f: Frame, stored: real): real
  {
    if TrailingOn(f) then Tightest(f.direction, Tightest(f.direction, stored, f.close), f.entry) else f.entry
  }

  function AtrStopAt(d: Direction, best: real, distance: real): real
  {
    if d.Long? then Max(best - distance, MIN_PRICE) else best + distance
  }

  /**
   * The new stop from the current one, the ATR stop and the management stop. Zero counts
   * as "no stop" in the source's truth tests; comparing None with a stop raises.
   */
  function CombinedStop(d: Direction, current: Option<real>, atrStop: Option<real>,
                        managed: Option<real>): Outcome<Option<real>>
  {
    if atrStop.None? && !Truthy(managed) then Ok(current)
    else
      var candidate :=
        if Truthy(atrStop) && Truthy(managed) then Some(Tightest(d, atrStop.value, managed.value))
        else if Truthy(atrStop) then atrStop
        else managed;
      if current.None? then Ok(candidate)
      else if candidate.None? then Raises
      else Ok(Some(Tightest(d, current.value, candidate.value)))
  }

  /** Fold an active Bollinger stop in; a missing or zero stop gives way to it. */
  function WithBbStop(d: Direction, stop: Option<real>, bbStop: real): real
  {
    if d.Long? then Max(if Truthy(stop) then stop.value else 0.0, bbStop)
    else Min(if Truthy(stop) then stop.value else 999999999.0, bbStop)
  }

  // ------------------------------------------------------------------ the whole update

  function CostBuffer(cfg: BrokerConfig, p: Position): real
  {
    p.entryPrice * (DecMeta(p.metadata, ENTRY_EFFECTIVE_FEE_RATE, cfg.EffectiveRate(cfg.entryFeeType))
                    + cfg.EffectiveRate(cfg.exitFeeType) + cfg.StopSlippage() / 100.0)
  }

  function RUnit(p: Position): Option<real>
  {
    var initial := Decimal(p.metadata, INITIAL_STOP_LOSS);
    if initial.Some? && initial.value > 0.0 then Some(Abs(p.entryPrice - initial.value)) else None
  }

  /** The ATR and best price recorded the first time the position is managed. */
  function Captured(p: Position, atr: real): Metadata
  {
    var m := if ATR_ENTRY_ATR in p.metadata then p.metadata else p.metadata[ATR_ENTRY_ATR := Num(atr)];
    if ATR_BEST_PRICE in m then m else m[ATR_BEST_PRICE := Num(p.entryPrice)]
  }

  function TrailingDistance(m: Metadata, atr: real, s: ExitSettings): real
    requires s.trailingMultiple.Some?
  {
    var entryAtr := DecMeta(m, ATR_ENTRY_ATR, atr);
    (if entryAtr > 0.0 then Max(atr, entryAtr) else atr) * s.trailingMultiple.value
  }

  function AdaptiveOf(p: Position, atr: real, s: ExitSettings, trailingDistance: real): Option<RSettings>
  {
    var unit := RUnit(p);
    if BoolMeta(p.metadata, ADAPTIVE_STOP_ENABLED, false) && unit.Some? && unit.value > 0.0 then
      Some(Adaptive(ProfileFactors(ProfileWord(p.metadata)), atr, unit.value, trailingDistance))
    else None
  }

  function WithAdaptive(s: ExitSettings, a: Option<RSettings>): ExitSettings
  {
    if a.None? then s
    else s.(breakevenActivationR := a.value.breakevenR, profitLockActivationR := a.value.lockActivationR,
            profitLockR := a.value.lockR)
  }

  function FrameOf(cfg: BrokerConfig, p: Position, c: Candle, atr: real, a: ExitSettings): Frame
  {
    var s := Resolve(p.metadata, a);
    var distance := TrailingDistance(Captured(p, atr), atr, s);
    Frame(p.direction, p.entryPrice, c.close, if p.direction.Long? then c.high else c.low, RUnit(p),
          CostBuffer(cfg, p), DecMeta(p.metadata, GIVEBACK_MAX_R_HIT, DecMeta(p.metadata, MAX_R_HIT, 0.0)),
          WithAdaptive(s, AdaptiveOf(p, atr, s, distance)))
  }

  function NewTarget(p: Position, f: Frame, best: real, distance: real): Option<real>
  {
    var away := if p.direction.Long? then distance else -distance;
    var entryTarget := Max(p.entryPrice + away, MIN_PRICE);
    match f.s.takeProfitMode
    case NoTarget => (if Holds(Get(p.metadata, MANUAL_TAKE_PROFIT_PCT)) then p.takeProfit else None)
    case FixedTarget => p.takeProfit
    case TrailingAtr => p.takeProfit
    case EntryAtr => Some(entryTarget)
    case Ratchet =>
      Some(Tightest(p.direction, if Truthy(p.takeProfit) then p.takeProfit.value else entryTarget,
                    Max(best + away, MIN_PRICE)))
  }

  /** The Bollinger part: its new state, when a band is there to trail. */
  function BbOf(p: Position, m: Metadata, f: Frame, best: real, band: Option<Band>, atr: real): Option<BbTrail>
  {
    if f.s.bbEnabled && band.Some? then
      Some(UpdateBbTrail(p.(metadata := m[ATR_BEST_PRICE := Num(best)]), f.CurrentR(), band.value, atr, f.s.bb))
    else None
  }

  predicate BbApplies(f: Frame, bb: Option<BbTrail>)
  {
    bb.Some? && !f.s.bbObserveOnly && bb.value.active && bb.value.stop.Some?
  }

  /** The stop before the Bollinger trail has its say. */
  function PlainStop(p: Position, f: Frame, best: real, distance: real): Outcome<Option<real>>
  {
    CombinedStop(p.direction, p.stopLoss,
                 if f.s.stopEnabled then Some(AtrStopAt(p.direction, best, distance)) else None,
                 ManagedStop(f).stop)
  }

  function FinalStop(d: Direction, plain: Option<real>, f: Frame, bb: Option<BbTrail>): Option<real>
  {
    if BbApplies(f, bb) then Some(WithBbStop(d, plain, bb.value.stop.value)) else plain
  }

  function FinalKind(p: Position, f: Frame, final: Option<real>, bb: Option<BbTrail>): Value
  {
    var managed, earlier := ManagedStop(f), Get(p.metadata, STOP_TYPE);
    if BbApplies(f, bb) && final == bb.value.stop then KindWord(BbStop)
    else if managed.stop.Some? && final == managed.stop then KindWord(managed.kind)
    else if final == p.stopLoss && (IsRaw(earlier, "breakeven") || IsRaw(earlier, "profit_lock")
                                    || IsRaw(earlier, "profit_giveback"))
      then earlier
    else KindWord(AtrStop)
  }

  function BaseEntries(f: Frame, best: real, kind: Value): Metadata
  {
    map[ATR_DYNAMIC_EXITS_ENABLED := Flag(true), ATR_STOP_ENABLED := Flag(f.s.stopEnabled),
        ATR_TAKE_PROFIT_ENABLED := Flag(f.s.takeProfitEnabled), ATR_TRAILING_ENABLED := Flag(f.s.trailingEnabled),
        ATR_STOP_MULTIPLE := Num(f.s.stopMultiple), ATR_TAKE_PROFIT_MULTIPLE := Num(f.s.takeProfitMultiple),
        ATR_TRAILING_MULTIPLE := OptNum(f.s.trailingMultiple), TRAILING_ATR_MULTIPLE := OptNum(f.s.trailingMultiple),
        ATR_TAKE_PROFIT_MODE := ModeWord(f.s.takeProfitMode), ATR_BEST_PRICE := Num(best), STOP_TYPE := kind]
  }

  function GivebackEntries(f: Frame): Metadata
  {
    var g := GivebackOf(f);
    map[GIVEBACK_ENABLED := Flag(f.s.givebackEnabled),
        GIVEBACK_ACTIVE := Flag(g.Some? && g.value.active),
        GIVEBACK_MAX_R_HIT := Num(if g.Some? then g.value.maxR else f.previousMaxR)]
    + (if g.Some? then map[MAX_R_HIT := Num(g.value.maxR)] else map[])
  }

  function BbEntries(f: Frame, bb: Option<BbTrail>): Metadata
  {
    if bb.None? then map[]
    else
      map[BB_TRAIL_ENABLED := Flag(true), BB_TRAIL_ACTIVE := Flag(bb.value.active),
          BB_TRAIL_STOP := OptNum(bb.value.stop),
          BB_TRAIL_STAGE := Num(bb.value.stage as real), BB_TRAIL_FORCE_CLOSE := Flag(bb.value.forceClose)]
      + (if f.s.bbPartialAtTp && bb.value.active && 0.0 < f.s.bbPartialPct < 1.0 then
           map[TP_IS_PARTIAL_CLOSE := Flag(true), TP_PARTIAL_CLOSE_PCT := Num(f.s.bbPartialPct),
               BB_TRAIL_PARTIAL_CLOSE_PCT := Num(f.s.bbPartialPct),
                 BB_TRAIL_PARTIAL_CLOSE_AT_TP := Flag(f.s.bbPartialAtTp)]
         else map[])
  }

  function AdaptiveEntries(a: Option<RSettings>): Metadata
  {
    if a.None? then map[]
    else map[BREAKEVEN_ACTIVATION_R := Num(a.value.breakevenR),
             PROFIT_LOCK_ACTIVATION_R := Num(a.value.lockActivationR),
             PROFIT_LOCK_R := Num(a.value.lockR)]
  }

  /** The entries one managed candle writes. */
  function Written(p: Position, f: Frame, best: real, kind: Value, bb: Option<BbTrail>, a: Option<RSettings>): Metadata
  {
    map[ADAPTIVE_STOP_ENABLED := Flag(BoolMeta(p.metadata, ADAPTIVE_STOP_ENABLED, false))]
    + BaseEntries(f, best, kind) + GivebackEntries(f) + BbEntries(f, bb) + AdaptiveEntries(a)
  }

  /** What one managed candle works out before it moves the stop. */
  datatype Plan = Plan(
    f: Frame, m: Metadata, best: real, distance: real, targetDistance: real, adaptive: Option<RSettings>)

  function PlanOf(cfg: BrokerConfig, p: Position, c: Candle, atr: real, a: ExitSettings): Plan
  {
    var m := Captured(p, atr);
    var s := Resolve(p.metadata, a);
    var trailing := TrailingDistance(m, atr, s);
    var f := FrameOf(cfg, p, c, atr, a);
    Plan(f, m, BestPrice(f, DecMeta(m, ATR_BEST_PRICE, p.entryPrice)),
         if TrailingOn(f) then trailing else atr * s.stopMultiple,
         atr * s.takeProfitMultiple, AdaptiveOf(p, atr, s, trailing))
  }

  function ManageWith(p: Position, c: Candle, atr: real, plan: Plan, band: Option<Band>): Outcome<Position>
  {
    var f := plan.f;
    var plain := PlainStop(p, f, plan.best, plan.distance);
    if plain.Raises? then Raises
    else
      var bb := BbOf(p, plan.m, f, plan.best, band, atr);
      var stop := FinalStop(p.direction, plain.value, f, bb);
      var kind := FinalKind(p, f, stop, bb);
      Ok(p.(stopLoss := stop, takeProfit := NewTarget(p, f, plan.best, plan.targetDistance), updatedAt := c.closeTime,
            metadata := plan.m + Written(p, f, plan.best, kind, bb, plan.adaptive)))
  }

  /** One managed candle, for a position that `Skips` does not exclude. */
  function Manage(cfg: BrokerConfig, p: Position, c: Candle, atr: real, a: ExitSettings,
                  band: Option<Band>): Outcome<Position>
  {
    ManageWith(p, c, atr, PlanOf(cfg, p, c, atr, a), band)
  }

  function UpdateDynamicExits(cfg: BrokerConfig, p: Position, c: Candle, atr: Option<real>, a: ExitSettings,
                              band: Option<Band>): Outcome<Position>
  {
    if Skips(p, c, atr, a) then Ok(p) else Manage(cfg, p, c, atr.value, a, band)
  }

  // ------------------------------------------------------------------ percentage trailing stop

  function PctTrailCandidate(cfg: BrokerConfig, p: Position, reference: real, activationPct: real,
                             distancePct: real): Option<real>
  {
    var activation := (if activationPct != 0.0 then activationPct else cfg.trailingActivationPct) / 100.0;
    var distance := (if distancePct != 0.0 then distancePct else cfg.trailingDistancePct) / 100.0;
    var reached :=
      if p.direction.Long? then reference >= Times(p.entryPrice, 1.0 + activation)
      else reference <= Times(p.entryPrice, 1.0 - activation);
    var candidate :=
      if p.direction.Long? then Times(reference, 1.0 - distance) else Times(reference, 1.0 + distance);
    if !reached || candidate <= 0.0 then None else Some(candidate)
  }

  function UpdateTrailingStop(cfg: BrokerConfig, p: Position, c: Candle): Position
  {
    var m := p.metadata;
    var candidate := PctTrailCandidate(cfg, p, if p.direction.Long? then c.high else c.low,
                                       DecMeta(m, TRAILING_STOP_ACTIVATION_PCT, cfg.trailingActivationPct),
                                       DecMeta(m, TRAILING_STOP_DISTANCE_PCT, cfg.trailingDistancePct));
    if !BoolMeta(m, TRAILING_STOP_ENABLED, cfg.trailingStopEnabled)
      || (BoolMeta(m, ATR_TRAILING_ENABLED, false) && BoolMeta(m, ATR_DYNAMIC_EXITS_ENABLED, false))
      || p.stopLoss.None? || c.close <= 0.0 || candidate.None?
      || !Tighter(p.direction, candidate.value, p.stopLoss.value) then p
    else p.(stopLoss := candidate, updatedAt := c.closeTime, metadata := m[TRAILING_STOP_ACTIVE := Flag(true)])
  }
}
