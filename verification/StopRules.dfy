/**
 * What the stop update comes to, read off the position, the candle and the settings: every rule that is on and has
 * reached its activation offers one price, and the new stop is the tightest of these and the old stop.
 */
module StopRules {
  import opened Common
  import opened Market
  import opened TrailPolicies
  import opened StopManagement
  import opened StopTheorems
  import ExitTriggers

  // ------------------------------------------------------------------ amounts, in prices

  /** The risk taken at entry, per unit: what one R is. None is taken without a positive initial stop. */
  function Risk(p: Position): real
  {
    var initial := DecMeta(p.metadata, INITIAL_STOP_LOSS, 0.0);
    if initial > 0.0 then Abs(p.entryPrice - initial) else 0.0
  }

  /** How far a price lies in the position's favour. */
  function Gain(p: Position, price: real): real { p.direction.Sign() * (price - p.entryPrice) }

  /** The price at which so much is gained. */
  function PriceAt(p: Position, gain: real): real { p.entryPrice + p.direction.Sign() * gain }

  /** The close is so many R in profit. Without a risk at entry, that is never more than zero. */
  ghost predicate InProfitBy(p: Position, c: Candle, r: real)
  {
    if Risk(p) > 0.0 then Gain(p, c.close) >= Times(r, Risk(p)) else 0.0 >= r
  }

  /** Both fees and the stop slippage, on the entry price. */
  function Costs(cfg: BrokerConfig, p: Position): real
  {
    var entryRate := DecMeta(p.metadata, ENTRY_EFFECTIVE_FEE_RATE, cfg.EffectiveRate(cfg.entryFeeType));
    p.entryPrice * (entryRate + cfg.EffectiveRate(cfg.exitFeeType) + cfg.StopSlippage() / 100.0)
  }

  /** The tighter of two prices, if any. */
  function Tighten(d: Direction, x: Option<real>, y: Option<real>): Option<real>
  {
    if x.None? then y else if y.None? then x else Some(Tightest(d, x.value, y.value))
  }

  // ------------------------------------------------------------------ the settings in force

  function Multiple(p: Position, a: ExitSettings): real { DecMeta(p.metadata, ATR_STOP_MULTIPLE, a.stopMultiple) }

  function TrailMultiple(p: Position, a: ExitSettings): real
  {
    var given := if a.trailingMultiple.Some? then a.trailingMultiple.value else Multiple(p, a);
    var x := DecMeta(p.metadata, ATR_TRAILING_MULTIPLE, DecMeta(p.metadata, TRAILING_ATR_MULTIPLE, given));
    if x <= 0.0 then Multiple(p, a) else x
  }

  /** A trail stays behind by the larger of this candle's and the entry's range. */
  function TrailDistance(p: Position, atr: real, a: ExitSettings): real
  {
    Max(atr, DecMeta(p.metadata, ATR_ENTRY_ATR, atr)) * TrailMultiple(p, a)
  }

  ghost predicate Adapts(p: Position) { BoolMeta(p.metadata, ADAPTIVE_STOP_ENABLED, false) && Risk(p) > 0.0 }

  /** The thresholds that follow volatility, where the position asks for them. */
  ghost function Adapted(p: Position, atr: real, a: ExitSettings): RSettings
  {
    if Adapts(p) then Adaptive(ProfileFactors(ProfileWord(p.metadata)), atr, Risk(p), TrailDistance(p, atr, a))
    else RSettings(DecMeta(p.metadata, BREAKEVEN_ACTIVATION_R, a.breakevenActivationR),
                   DecMeta(p.metadata, PROFIT_LOCK_ACTIVATION_R, a.profitLockActivationR),
                   DecMeta(p.metadata, PROFIT_LOCK_R, a.profitLockR))
  }

  // ------------------------------------------------------------------ what each rule offers

  /** Protect so many R, but at least the costs, once so many have been gained and the close is beyond that price. */
  ghost function Protection(cfg: BrokerConfig, p: Position, c: Candle, on: bool, activation: real,
                            r: real): Option<real>
  {
    var kept := Max(Times(r, Risk(p)), Costs(cfg, p));
    if on && InProfitBy(p, c, activation) && Gain(p, c.close) > kept then Some(PriceAt(p, kept)) else None
  }

  ghost function BreakevenOffer(cfg: BrokerConfig, p: Position, c: Candle, atr: real, a: ExitSettings): Option<real>
  {
    Protection(cfg, p, c, BoolMeta(p.metadata, BREAKEVEN_ENABLED, a.breakevenEnabled), Adapted(p, atr, a).breakevenR,
               DecMeta(p.metadata, BREAKEVEN_OFFSET_R, a.breakevenOffsetR))
  }

  ghost function LockOffer(cfg: BrokerConfig, p: Position, c: Candle, atr: real, a: ExitSettings): Option<real>
  {
    Protection(cfg, p, c, BoolMeta(p.metadata, PROFIT_LOCK_ENABLED, a.profitLockEnabled),
               Adapted(p, atr, a).lockActivationR, Adapted(p, atr, a).lockR)
  }

  /** The stop trails the best close, either from a profit on or always. */
  ghost predicate Trails(p: Position, c: Candle, a: ExitSettings)
  {
    var m := p.metadata;
    if BoolMeta(m, ATR_TRAIL_AFTER_R_ENABLED, a.trailAfterREnabled) then
      InProfitBy(p, c, DecMeta(m, ATR_TRAIL_ACTIVATION_R, a.trailActivationR))
    else BoolMeta(m, ATR_TRAILING_ENABLED, a.trailingEnabled)
  }

  /** Where the ATR stop is measured from. */
  ghost function From(p: Position, c: Candle, a: ExitSettings): real
  {
    var gain := Max(Gain(p, c.close), Gain(p, DecMeta(p.metadata, ATR_BEST_PRICE, p.entryPrice)));
    PriceAt(p, if Trails(p, c, a) then Max(gain, 0.0) else 0.0)
  }

  ghost function AtrDistance(p: Position, c: Candle, atr: real, a: ExitSettings): real
  {
    if Trails(p, c, a) then TrailDistance(p, atr, a) else atr * Multiple(p, a)
  }

  /** A long's ATR stop is kept above zero; a short's that comes out at zero counts as none. */
  ghost function AtrOffer(p: Position, c: Candle, atr: real, a: ExitSettings): Option<real>
  {
    var price := From(p, c, a) - p.direction.Sign() * AtrDistance(p, c, atr, a);
    if !(BoolMeta(p.metadata, ATR_STOP_ENABLED, a.stopEnabled) && Multiple(p, a) > 0.0) then None
    else if p.direction.Long? then Some(Max(price, 0.00000001))
    else if price == 0.0 then None
    else Some(price)
  }

  /** The best move of the trade so far, in R. */
  ghost function BestMove(p: Position, c: Candle): real
    requires Risk(p) > 0.0
  {
    var before := DecMeta(p.metadata, GIVEBACK_MAX_R_HIT, DecMeta(p.metadata, MAX_R_HIT, 0.0));
    var now := Max(Gain(p, c.close), Gain(p, if p.direction.Long? then c.high else c.low)) / Risk(p);
    Max(before, Max(now, 0.0))
  }

  /** The giveback guard keeps a share of the best move, and a larger one once the move is large. */
  ghost function GivebackKept(p: Position, a: ExitSettings, move: real): real
  {
    var m := p.metadata;
    var share := Clamp(DecMeta(m, GIVEBACK_LOCK_FRACTION, a.giveback.lockFraction), 0.05, 0.95);
    var tight := Max(share, Min(DecMeta(m, GIVEBACK_TIGHTEN_FRACTION, a.giveback.tightenFraction), 0.98));
    Max(Max(DecMeta(m, GIVEBACK_MIN_LOCK_R, a.giveback.minLockR), 0.0),
        Times(move, if move >= DecMeta(m, GIVEBACK_TIGHTEN_AFTER_R, a.giveback.tightenAfterR) then tight else share))
  }

  ghost function GivebackOffer(p: Position, c: Candle, a: ExitSettings): Option<real>
  {
    if !BoolMeta(p.metadata, GIVEBACK_ENABLED, a.givebackEnabled) || Risk(p) <= 0.0 then None
    else
      var move := BestMove(p, c);
      var kept := GivebackKept(p, a, move);
      var price := PriceAt(p, Times(Risk(p), kept));
      if move >= DecMeta(p.metadata, GIVEBACK_ACTIVATION_R, a.giveback.activationR) && kept > 0.0 && price > 0.0 then
        Some(price)
      else None
  }

  /** So far behind a price, but never at zero or below. */
  function Behind(d: Direction, price: real, distance: real): real
  {
    Max(price - d.Sign() * distance, 0.00000001)
  }

  /** The Bollinger trail follows the middle band while the bands are wide, and stands still while they are squeezed. */
  ghost function BbPrice(p: Position, atr: real, a: ExitSettings, b: Band): Option<real>
  {
    var kept := Decimal(p.metadata, BB_TRAIL_STOP);
    var buffer := Times(atr, DecMeta(p.metadata, BB_TRAIL_BUFFER_MULTIPLIER, a.bb.bufferMultiplier));
    if b.upper - b.lower < atr / 2.0 then kept
    else Tighten(p.direction, kept, Some(Behind(p.direction, b.middle, buffer)))
  }

  /** It is active once a profit has been reached with the middle band beyond the entry, and stays so. */
  ghost function BbOffer(p: Position, c: Candle, atr: real, a: ExitSettings, band: Option<Band>): Option<real>
  {
    var m := p.metadata;
    if band.None? || !BoolMeta(m, BB_TRAIL_ENABLED, a.bbEnabled) || BoolMeta(m, BB_TRAIL_OBSERVE_ONLY, a.bbObserveOnly)
    then None
    else
      var active := BoolMeta(m, BB_TRAIL_ACTIVE, false)
        || (InProfitBy(p, c, DecMeta(m, BB_TRAIL_ACTIVATION_R, a.bb.activationR)) && Gain(p, band.value.middle) > 0.0);
      var price := BbPrice(p, atr, a, band.value);
      if active && price.Some? && price.value > 0.0 then price else None
  }

  ghost function PlainOffers(cfg: BrokerConfig, p: Position, c: Candle, atr: real, a: ExitSettings): seq<Option<real>>
  {
    [p.stopLoss, AtrOffer(p, c, atr, a), BreakevenOffer(cfg, p, c, atr, a), LockOffer(cfg, p, c, atr, a),
     GivebackOffer(p, c, a)]
  }

  /** Every price on offer. The Bollinger trail gives a short without any other stop one no higher than 999999999. */
  ghost function Offers(cfg: BrokerConfig, p: Position, c: Candle, atr: real, a: ExitSettings,
                        band: Option<Band>): seq<Option<real>>
  {
    var offers, bb := PlainOffers(cfg, p, c, atr, a), BbOffer(p, c, atr, a, band);
    var ceiling := if p.direction.Short? && bb.Some? && (forall i :: 0 <= i < |offers| ==> offers[i].None?)
      then Some(999999999.0) else None;
    offers + [bb] + [ceiling]
  }

  /** One of the prices, and no other is tighter. */
  ghost predicate TightestOf(d: Direction, offers: seq<Option<real>>, stop: Option<real>)
  {
    stop in offers &&
    forall i :: 0 <= i < |offers| && offers[i].Some? ==> stop.Some? && !Tighter(d, offers[i].value, stop.value)
  }

  // ------------------------------------------------------------------ the update computes the tightest offer

  /** What a frame takes from the position and the candle. */
  ghost predicate Shows(f: Frame, cfg: BrokerConfig, p: Position, c: Candle)
  {
    && f.direction == p.direction && f.entry == p.entryPrice && f.close == c.close && f.buffer == Costs(cfg, p)
    && f.unit == (if DecMeta(p.metadata, INITIAL_STOP_LOSS, 0.0) > 0.0 then Some(Risk(p)) else None)
  }

  lemma FrameShows(cfg: BrokerConfig, p: Position, c: Candle, atr: real, a: ExitSettings)
    ensures Shows(FrameOf(cfg, p, c, atr, a), cfg, p, c)
  {
  }

  lemma ReachedIsInProfit(f: Frame, cfg: BrokerConfig, p: Position, c: Candle, r: real)
    requires Shows(f, cfg, p, c)
    ensures f.CurrentR() >= r <==> InProfitBy(p, c, r)
  {
    if Risk(p) > 0.0 { RatioCompares(Gain(p, c.close), Risk(p), r); }
  }

  lemma OffsetIsProtection(f: Frame, cfg: BrokerConfig, p: Position, c: Candle, on: bool, activation: real, r: real)
    requires Shows(f, cfg, p, c)
    ensures AtOffsetOpt(f, f.Offset(on, activation, r)) == Protection(cfg, p, c, on, activation, r)
  {
    ReachedIsInProfit(f, cfg, p, c, activation);
    assert f.InPrice(r) == Times(r, Risk(p));
  }

  /** The settings a frame works with. */
  ghost predicate Uses(f: Frame, p: Position, atr: real, a: ExitSettings)
  {
    var m, s := p.metadata, f.s;
    && s.breakevenEnabled == BoolMeta(m, BREAKEVEN_ENABLED, a.breakevenEnabled)
    && s.breakevenActivationR == Adapted(p, atr, a).breakevenR
    && s.breakevenOffsetR == DecMeta(m, BREAKEVEN_OFFSET_R, a.breakevenOffsetR)
    && s.profitLockEnabled == BoolMeta(m, PROFIT_LOCK_ENABLED, a.profitLockEnabled)
    && s.profitLockActivationR == Adapted(p, atr, a).lockActivationR && s.profitLockR == Adapted(p, atr, a).lockR
  }

  lemma DistanceIs(p: Position, atr: real, a: ExitSettings)
    requires atr > 0.0
    ensures TrailingDistance(Captured(p, atr), atr, Resolve(p.metadata, a)) == TrailDistance(p, atr, a)
  {
    var m := Captured(p, atr);
    assert DecMeta(m, ATR_ENTRY_ATR, atr) == DecMeta(p.metadata, ATR_ENTRY_ATR, atr);
    assert Resolve(p.metadata, a).trailingMultiple == Some(TrailMultiple(p, a));
  }

  lemma FrameUses(cfg: BrokerConfig, p: Position, c: Candle, atr: real, a: ExitSettings)
    requires atr > 0.0
    ensures Uses(FrameOf(cfg, p, c, atr, a), p, atr, a)
  {
    DistanceIs(p, atr, a);
  }

  lemma ProtectedIs(f: Frame, cfg: BrokerConfig, p: Position, c: Candle, atr: real, a: ExitSettings)
    requires Shows(f, cfg, p, c) && Uses(f, p, atr, a)
    ensures ProtectedStop(f).stop ==
      Tighten(p.direction, BreakevenOffer(cfg, p, c, atr, a), LockOffer(cfg, p, c, atr, a))
  {
    OffsetIsProtection(f, cfg, p, c, f.s.breakevenEnabled, f.s.breakevenActivationR, f.s.breakevenOffsetR);
    OffsetIsProtection(f, cfg, p, c, f.s.profitLockEnabled, f.s.profitLockActivationR, f.s.profitLockR);
  }

  /** The giveback rule a frame works with, and the best move so far. */
  ghost predicate GivesBack(f: Frame, p: Position, c: Candle, a: ExitSettings)
  {
    var m := p.metadata;
    && f.s.givebackEnabled == BoolMeta(m, GIVEBACK_ENABLED, a.givebackEnabled)
    && f.favorable == (if p.direction.Long? then c.high else c.low)
    && f.previousMaxR == DecMeta(m, GIVEBACK_MAX_R_HIT, DecMeta(m, MAX_R_HIT, 0.0))
    && f.s.giveback == GivebackRule(
         DecMeta(m, GIVEBACK_ACTIVATION_R, a.giveback.activationR),
         DecMeta(m, GIVEBACK_LOCK_FRACTION, a.giveback.lockFraction),
         DecMeta(m, GIVEBACK_MIN_LOCK_R, a.giveback.minLockR),
         DecMeta(m, GIVEBACK_TIGHTEN_AFTER_R, a.giveback.tightenAfterR),
         DecMeta(m, GIVEBACK_TIGHTEN_FRACTION, a.giveback.tightenFraction))
  }

  lemma FrameGivesBack(cfg: BrokerConfig, p: Position, c: Candle, atr: real, a: ExitSettings)
    ensures GivesBack(FrameOf(cfg, p, c, atr, a), p, c, a)
  {
  }

  lemma MoreRatio(x: real, y: real, unit: real)
    requires unit > 0.0
    ensures Max(x, y) / unit == Max(x / unit, y / unit)
  {
    RatioCompares(x, unit, y / unit);
    assert Times(y / unit, unit) == y;
  }

  /** The share kept, in R. */
  lemma KeptShareIs(rule: GivebackRule, move: real)
    requires move >= 0.0
    ensures var share := Clamp(rule.lockFraction, 0.05, 0.95);
      var tight := Max(share, Min(rule.tightenFraction, 0.98));
      LockR(rule, move) ==
        Max(Max(rule.minLockR, 0.0), Times(move, if move >= rule.tightenAfterR then tight else share))
  {
    var share := Clamp(rule.lockFraction, 0.05, 0.95);
    TimesOrder(move, share, Max(share, Min(rule.tightenFraction, 0.98)));
    assert Clamp(Max(rule.tightenFraction, share), share, 0.98) == Max(share, Min(rule.tightenFraction, 0.98));
  }

  /** The giveback stop, given what it is to keep. */
  lemma ProtectingIs(entry: real, unit: real, d: Direction, current: Option<real>, move: real, kept: real,
                     activation: real)
    requires unit > 0.0 && entry > 0.0 && move >= 0.0 && (current.Some? ==> current.value > 0.0)
    ensures var g := Protecting(entry, unit, d, current, move, kept, activation);
      var at := entry + d.Sign() * Times(unit, kept);
      && (g.active <==> move >= activation && kept > 0.0 && at > 0.0)
      && (g.active ==> g.stop == Tighten(d, Some(at), current))
  {
    KeptPositive(unit, kept);
  }

  lemma BestMoveIs(f: Frame, cfg: BrokerConfig, p: Position, c: Candle, a: ExitSettings)
    requires Shows(f, cfg, p, c) && GivesBack(f, p, c, a) && Risk(p) > 0.0
    ensures BestMove(p, c) ==
      Max(Max(f.previousMaxR, Points(p.direction, p.entryPrice, c.close) / Risk(p)),
          Max(Points(p.direction, p.entryPrice, f.favorable) / Risk(p), 0.0))
  {
    MoreRatio(Gain(p, c.close), Gain(p, f.favorable), Risk(p));
  }

  lemma KeptIs(f: Frame, p: Position, c: Candle, a: ExitSettings, move: real)
    requires GivesBack(f, p, c, a) && move >= 0.0
    ensures LockR(f.s.giveback, move) == GivebackKept(p, a, move)
  {
    KeptShareIs(f.s.giveback, move);
  }

  lemma GivebackForm(entry: real, unit: real, d: Direction, current: Option<real>, price: real, favorable: real,
                     before: real, rule: GivebackRule, move: real, kept: real)
    requires unit > 0.0 && entry > 0.0 && kept == LockR(rule, move)
    requires move == Max(Max(before, Points(d, entry, price) / unit), Max(Points(d, entry, favorable) / unit, 0.0))
    ensures GivebackStop(entry, unit, d, current, price, favorable, before, rule) ==
      Protecting(entry, unit, d, current, move, kept, rule.activationR)
  {
  }

  lemma GivebackProtects(f: Frame, cfg: BrokerConfig, p: Position, c: Candle, a: ExitSettings)
    requires Shows(f, cfg, p, c) && GivesBack(f, p, c, a) && p.entryPrice > 0.0 && f.s.givebackEnabled && Risk(p) > 0.0
    ensures GivebackOf(f) ==
      Some(Protecting(p.entryPrice, Risk(p), p.direction, ProtectedStop(f).stop, BestMove(p, c),
                      GivebackKept(p, a, BestMove(p, c)), f.s.giveback.activationR))
  {
    BestMoveIs(f, cfg, p, c, a);
    KeptIs(f, p, c, a, BestMove(p, c));
    GivebackForm(p.entryPrice, Risk(p), p.direction, ProtectedStop(f).stop, c.close, f.favorable, f.previousMaxR,
                 f.s.giveback, BestMove(p, c), GivebackKept(p, a, BestMove(p, c)));
  }

  lemma OfferedProtection(p: Position, c: Candle, a: ExitSettings, current: Option<real>)
    requires p.entryPrice > 0.0 && BoolMeta(p.metadata, GIVEBACK_ENABLED, a.givebackEnabled) && Risk(p) > 0.0
    requires current.Some? ==> current.value > 0.0
    ensures var move, offer := BestMove(p, c), GivebackOffer(p, c, a);
      var g := Protecting(p.entryPrice, Risk(p), p.direction, current, move, GivebackKept(p, a, move),
                          DecMeta(p.metadata, GIVEBACK_ACTIVATION_R, a.giveback.activationR));
      && (g.active <==> offer.Some?) && (offer.Some? ==> g.stop == Tighten(p.direction, offer, current))
  {
    ProtectingIs(p.entryPrice, Risk(p), p.direction, current, BestMove(p, c), GivebackKept(p, a, BestMove(p, c)),
                 DecMeta(p.metadata, GIVEBACK_ACTIVATION_R, a.giveback.activationR));
  }

  lemma GivebackIs(f: Frame, cfg: BrokerConfig, p: Position, c: Candle, a: ExitSettings)
    requires Shows(f, cfg, p, c) && GivesBack(f, p, c, a) && p.entryPrice > 0.0
    requires ProtectedStop(f).stop.Some? ==> ProtectedStop(f).stop.value > 0.0
    ensures var g, offer := GivebackOf(f), GivebackOffer(p, c, a);
      && (g.Some? && g.value.active <==> offer.Some?)
      && (offer.Some? ==> g.value.stop == Tighten(p.direction, offer, ProtectedStop(f).stop))
  {
    if f.s.givebackEnabled && Risk(p) > 0.0 {
      GivebackProtects(f, cfg, p, c, a);
      OfferedProtection(p, c, a, ProtectedStop(f).stop);
    }
  }

  lemma KeptPositive(unit: real, r: real)
    requires unit > 0.0
    ensures r > 0.0 ==> Times(unit, r) > 0.0
  {
  }

  lemma ManagedIs(f: Frame, cfg: BrokerConfig, p: Position, c: Candle, atr: real, a: ExitSettings)
    requires Shows(f, cfg, p, c) && Uses(f, p, atr, a) && GivesBack(f, p, c, a)
    requires p.entryPrice > 0.0 && c.close > 0.0 && Costs(cfg, p) >= 0.0
    ensures ManagedStop(f).stop ==
      Tighten(p.direction, Tighten(p.direction, BreakevenOffer(cfg, p, c, atr, a), LockOffer(cfg, p, c, atr, a)),
              GivebackOffer(p, c, a))
  {
    ProtectedIs(f, cfg, p, c, atr, a);
    ProtectedPositive(f);
    GivebackIs(f, cfg, p, c, a);
  }

  lemma ProtectedPositive(f: Frame)
    requires f.close > 0.0 && f.entry > 0.0 && f.buffer >= 0.0
    ensures ProtectedStop(f).stop.Some? ==> ProtectedStop(f).stop.value > 0.0
  {
  }

  /** What the ATR stop is computed from. */
  ghost predicate Measures(plan: Plan, p: Position, c: Candle, atr: real, a: ExitSettings)
  {
    && plan.f.s.stopEnabled == (BoolMeta(p.metadata, ATR_STOP_ENABLED, a.stopEnabled) && Multiple(p, a) > 0.0)
    && plan.best == From(p, c, a) && plan.distance == AtrDistance(p, c, atr, a)
  }

  lemma TrailsAsSaid(f: Frame, cfg: BrokerConfig, p: Position, c: Candle, atr: real, a: ExitSettings)
    requires f == FrameOf(cfg, p, c, atr, a)
    ensures TrailingOn(f) <==> Trails(p, c, a)
  {
    FrameShows(cfg, p, c, atr, a);
    ReachedIsInProfit(f, cfg, p, c, DecMeta(p.metadata, ATR_TRAIL_ACTIVATION_R, a.trailActivationR));
    assert f.s.trailAfterREnabled == BoolMeta(p.metadata, ATR_TRAIL_AFTER_R_ENABLED, a.trailAfterREnabled);
  }

  lemma PlanMeasures(cfg: BrokerConfig, p: Position, c: Candle, atr: real, a: ExitSettings)
    requires atr > 0.0
    ensures Measures(PlanOf(cfg, p, c, atr, a), p, c, atr, a)
  {
    var f := FrameOf(cfg, p, c, atr, a);
    TrailsAsSaid(f, cfg, p, c, atr, a);
    DistanceIs(p, atr, a);
    assert DecMeta(Captured(p, atr), ATR_BEST_PRICE, p.entryPrice) == DecMeta(p.metadata, ATR_BEST_PRICE, p.entryPrice);
  }

  /** The price the ATR rule offers, before zero counts as none. */
  lemma AtrIs(plan: Plan, p: Position, c: Candle, atr: real, a: ExitSettings)
    requires Measures(plan, p, c, atr, a)
    ensures var stop := if plan.f.s.stopEnabled then Some(AtrStopAt(p.direction, plan.best, plan.distance)) else None;
      AtrOffer(p, c, atr, a) == if Truthy(stop) then stop else None
  {
  }

  lemma CombinedIs(d: Direction, current: Option<real>, atrStop: Option<real>, managed: Option<real>)
    requires CombinedStop(d, current, atrStop, managed).Ok? && (managed.Some? ==> managed.value > 0.0)
    ensures CombinedStop(d, current, atrStop, managed).value ==
      Tighten(d, current, Tighten(d, if Truthy(atrStop) then atrStop else None, managed))
  {
  }

  ghost predicate Trailing(f: Frame, p: Position, a: ExitSettings)
  {
    var m, s := p.metadata, f.s;
    && s.bbEnabled == BoolMeta(m, BB_TRAIL_ENABLED, a.bbEnabled)
    && s.bbObserveOnly == BoolMeta(m, BB_TRAIL_OBSERVE_ONLY, a.bbObserveOnly)
    && s.bb.bufferMultiplier == DecMeta(m, BB_TRAIL_BUFFER_MULTIPLIER, a.bb.bufferMultiplier)
    && s.bb.activationR == DecMeta(m, BB_TRAIL_ACTIVATION_R, a.bb.activationR)
  }

  lemma FrameTrails(cfg: BrokerConfig, p: Position, c: Candle, atr: real, a: ExitSettings)
    ensures Trailing(FrameOf(cfg, p, c, atr, a), p, a)
  {
  }

  lemma BehindIs(d: Direction, price: real, distance: real)
    ensures Behind(d, price, distance) == Max(if d.Long? then price - distance else price + distance, 0.00000001)
  {
  }

  lemma GainSign(p: Position, price: real)
    ensures Gain(p, price) > 0.0 <==> if p.direction.Long? then price > p.entryPrice else price < p.entryPrice
  {
  }

  lemma BbPriceIs(p: Position, atr: real, a: ExitSettings, b: Band)
    ensures var kept := Decimal(p.metadata, BB_TRAIL_STOP);
      var multiplier := DecMeta(p.metadata, BB_TRAIL_BUFFER_MULTIPLIER, a.bb.bufferMultiplier);
      BbPrice(p, atr, a, b) ==
        if b.upper - b.lower >= atr * 0.5
        then Some(RatchetStop(kept, CandidateStop(b.middle, atr, multiplier, p.direction), p.direction)) else kept
  {
    var multiplier := DecMeta(p.metadata, BB_TRAIL_BUFFER_MULTIPLIER, a.bb.bufferMultiplier);
    var buffer := Times(atr, multiplier);
    BehindIs(p.direction, b.middle, buffer);
    assert CandidateStop(b.middle, atr, multiplier, p.direction) == Behind(p.direction, b.middle, buffer);
    var kept, x := Decimal(p.metadata, BB_TRAIL_STOP), Behind(p.direction, b.middle, buffer);
    assert Some(RatchetStop(kept, x, p.direction)) == Tighten(p.direction, kept, Some(x));
    assert BbPrice(p, atr, a, b) == if b.upper - b.lower < atr / 2.0 then kept else Tighten(p.direction, kept, Some(x));
  }

  /** The state of the trail on one candle, from the entries it kept. */
  lemma BbTrailIs(q: Position, p: Position, currentR: real, b: Band, atr: real, rule: BbRule, a: ExitSettings)
    requires q.direction == p.direction && q.entryPrice == p.entryPrice
    requires Get(q.metadata, BB_TRAIL_ACTIVE) == Get(p.metadata, BB_TRAIL_ACTIVE)
    requires Get(q.metadata, BB_TRAIL_STOP) == Get(p.metadata, BB_TRAIL_STOP)
    requires rule.bufferMultiplier == DecMeta(p.metadata, BB_TRAIL_BUFFER_MULTIPLIER, a.bb.bufferMultiplier)
    ensures var t, price := UpdateBbTrail(q, currentR, b, atr, rule), BbPrice(p, atr, a, b);
      && (t.active <==> BoolMeta(p.metadata, BB_TRAIL_ACTIVE, false)
                        || (currentR >= rule.activationR && Gain(p, b.middle) > 0.0))
      && (t.active ==> t.stop == if price.Some? && price.value > 0.0 then price else None)
  {
    assert Decimal(q.metadata, BB_TRAIL_STOP) == Decimal(p.metadata, BB_TRAIL_STOP);
    assert BoolMeta(q.metadata, BB_TRAIL_ACTIVE, false) == BoolMeta(p.metadata, BB_TRAIL_ACTIVE, false);
    GainSign(p, b.middle);
    BbPriceIs(p, atr, a, b);
  }

  lemma BbIs(plan: Plan, cfg: BrokerConfig, p: Position, c: Candle, atr: real, a: ExitSettings, band: Option<Band>)
    requires Shows(plan.f, cfg, p, c) && Trailing(plan.f, p, a) && plan.m == Captured(p, atr)
    ensures var bb := BbOf(p, plan.m, plan.f, plan.best, band, atr);
      && (BbApplies(plan.f, bb) <==> BbOffer(p, c, atr, a, band).Some?)
      && (BbApplies(plan.f, bb) ==> bb.value.stop == BbOffer(p, c, atr, a, band))
  {
    if band.Some? {
      var m := plan.m[ATR_BEST_PRICE := Num(plan.best)];
      BbTrailIs(p.(metadata := m), p, plan.f.CurrentR(), band.value, atr, plan.f.s.bb, a);
      ReachedIsInProfit(plan.f, cfg, p, c, plan.f.s.bb.activationR);
    }
  }

  lemma FinalIs(d: Direction, plain: Option<real>, f: Frame, bb: Option<BbTrail>)
    requires BbApplies(f, bb) ==> bb.value.stop.value > 0.0 && (d.Short? ==> plain != Some(0.0))
    ensures FinalStop(d, plain, f, bb) ==
      if !BbApplies(f, bb) then plain
      else Tighten(d, if d.Short? && plain.None? then Some(999999999.0) else plain, bb.value.stop)
  {
  }

  lemma TightenOrder(d: Direction, x: Option<real>, y: Option<real>, z: Option<real>)
    ensures Tighten(d, x, y) == Tighten(d, y, x)
    ensures Tighten(d, x, Tighten(d, y, z)) == Tighten(d, Tighten(d, x, y), z)
  {
  }

  lemma OneMoreOffer(d: Direction, offers: seq<Option<real>>, stop: Option<real>, x: Option<real>)
    requires TightestOf(d, offers, stop)
    ensures TightestOf(d, offers + [x], Tighten(d, stop, x))
    ensures Tighten(d, stop, x).None? <==> stop.None? && x.None?
  {
    var more, next := offers + [x], Tighten(d, stop, x);
    assert stop in offers && more[|offers|] == x;
    assert next == stop || next == x;
    assert next in more;
    forall i | 0 <= i < |more| && more[i].Some? ensures next.Some? && !Tighter(d, more[i].value, next.value) {
      if i < |offers| { assert more[i] == offers[i]; }
    }
  }

  lemma FoldOffers(d: Direction, current: Option<real>, atrStop: Option<real>, breakeven: Option<real>,
                   lock: Option<real>, giveback: Option<real>)
    ensures TightestOf(d, [current, atrStop, breakeven, lock, giveback],
                       Tighten(d, current, Tighten(d, atrStop, Tighten(d, Tighten(d, breakeven, lock), giveback))))
  {
    var x1 := Tighten(d, current, atrStop);
    var x2 := Tighten(d, x1, breakeven);
    var x3 := Tighten(d, x2, lock);
    OneMoreOffer(d, [current], current, atrStop);
    OneMoreOffer(d, [current] + [atrStop], x1, breakeven);
    OneMoreOffer(d, [current] + [atrStop] + [breakeven], x2, lock);
    OneMoreOffer(d, [current] + [atrStop] + [breakeven] + [lock], x3, giveback);
    TightenOrder(d, current, atrStop, Tighten(d, Tighten(d, breakeven, lock), giveback));
    TightenOrder(d, x1, Tighten(d, breakeven, lock), giveback);
    TightenOrder(d, x1, breakeven, lock);
    assert [current] + [atrStop] + [breakeven] + [lock] + [giveback] == [current, atrStop, breakeven, lock, giveback];
  }

  /** The trail's offer, and its ceiling where nothing else is offered, come last. */
  lemma FoldTrail(d: Direction, offers: seq<Option<real>>, plain: Option<real>, bb: Option<real>)
    requires TightestOf(d, offers, plain)
    ensures var ceiling := if d.Short? && bb.Some? && (forall i :: 0 <= i < |offers| ==> offers[i].None?)
        then Some(999999999.0) else None;
      TightestOf(d, offers + [bb] + [ceiling],
                 if bb.None? then plain
                 else Tighten(d, if d.Short? && plain.None? then Some(999999999.0) else plain, bb))
  {
    assert plain.None? <==> forall i :: 0 <= i < |offers| ==> offers[i].None?;
    var ceiling := if d.Short? && bb.Some? && plain.None? then Some(999999999.0) else None;
    OneMoreOffer(d, offers, plain, bb);
    OneMoreOffer(d, offers + [bb], Tighten(d, plain, bb), ceiling);
    TightenOrder(d, ceiling, bb, None);
  }

  lemma PlainIs(plan: Plan, cfg: BrokerConfig, p: Position, c: Candle, atr: real, a: ExitSettings)
    requires Shows(plan.f, cfg, p, c) && Uses(plan.f, p, atr, a) && GivesBack(plan.f, p, c, a)
    requires Measures(plan, p, c, atr, a) && p.entryPrice > 0.0 && c.close > 0.0 && Costs(cfg, p) >= 0.0
    requires PlainStop(p, plan.f, plan.best, plan.distance).Ok?
    ensures var plain, d := PlainStop(p, plan.f, plan.best, plan.distance).value, p.direction;
      && plain == Tighten(d, p.stopLoss,
           Tighten(d, AtrOffer(p, c, atr, a),
             Tighten(d, Tighten(d, BreakevenOffer(cfg, p, c, atr, a), LockOffer(cfg, p, c, atr, a)),
                     GivebackOffer(p, c, a))))
      && (p.stopLoss != Some(0.0) ==> plain != Some(0.0))
  {
    var f := plan.f;
    var atrStop := if f.s.stopEnabled then Some(AtrStopAt(p.direction, plan.best, plan.distance)) else None;
    ManagedNonZero(f);
    ManagedIs(f, cfg, p, c, atr, a);
    AtrIs(plan, p, c, atr, a);
    CombinedIs(p.direction, p.stopLoss, atrStop, ManagedStop(f).stop);
    if p.stopLoss != Some(0.0) { CombinedNonZero(p.direction, p.stopLoss, atrStop, ManagedStop(f).stop); }
  }

  lemma PlanReads(cfg: BrokerConfig, p: Position, c: Candle, atr: real, a: ExitSettings)
    requires atr > 0.0
    ensures var plan := PlanOf(cfg, p, c, atr, a);
      && Shows(plan.f, cfg, p, c) && Uses(plan.f, p, atr, a) && GivesBack(plan.f, p, c, a) && Trailing(plan.f, p, a)
      && Measures(plan, p, c, atr, a) && plan.m == Captured(p, atr)
  {
    FrameShows(cfg, p, c, atr, a);
    FrameUses(cfg, p, c, atr, a);
    FrameGivesBack(cfg, p, c, atr, a);
    FrameTrails(cfg, p, c, atr, a);
    PlanMeasures(cfg, p, c, atr, a);
  }

  /**
   * One update, for every combination of settings and entries: the new stop is the tightest of the old one and what the
   * rules offer. What the Bollinger trail does to a short's stop of exactly zero is left to `ManageTightens`.
   */
  lemma NewStopIsTightest(cfg: BrokerConfig, p: Position, c: Candle, atr: real, a: ExitSettings, band: Option<Band>)
    requires Priced(cfg, p, c) && atr > 0.0 && Manage(cfg, p, c, atr, a, band).Ok?
    requires p.direction.Short? && p.stopLoss == Some(0.0) ==> BbOffer(p, c, atr, a, band).None?
    ensures TightestOf(p.direction, Offers(cfg, p, c, atr, a, band), Manage(cfg, p, c, atr, a, band).value.stopLoss)
  {
    var plan := PlanOf(cfg, p, c, atr, a);
    PlanReads(cfg, p, c, atr, a);
    BufferNonNegative(cfg, p);
    PlainIs(plan, cfg, p, c, atr, a);
    BbStopPositive(p, plan.m, plan.f, plan.best, band, atr);
    BbIs(plan, cfg, p, c, atr, a, band);
    var plain := PlainStop(p, plan.f, plan.best, plan.distance).value;
    FinalIs(p.direction, plain, plan.f, BbOf(p, plan.m, plan.f, plan.best, band, atr));
    FoldOffers(p.direction, p.stopLoss, AtrOffer(p, c, atr, a), BreakevenOffer(cfg, p, c, atr, a),
               LockOffer(cfg, p, c, atr, a), GivebackOffer(p, c, a));
    FoldTrail(p.direction, PlainOffers(cfg, p, c, atr, a), plain, BbOffer(p, c, atr, a, band));
  }

  // ------------------------------------------------------------------ when a position is managed

  /** Some stop rule or the target rule is on, by the position's entries or else by the settings. */
  ghost predicate SomeRuleOn(p: Position, a: ExitSettings)
  {
    var m := p.metadata;
    || (BoolMeta(m, ATR_STOP_ENABLED, a.stopEnabled) && Multiple(p, a) > 0.0)
    || (BoolMeta(m, ATR_TAKE_PROFIT_ENABLED, a.takeProfitEnabled)
        && DecMeta(m, ATR_TAKE_PROFIT_MULTIPLE, a.takeProfitMultiple) > 0.0)
    || BoolMeta(m, BREAKEVEN_ENABLED, a.breakevenEnabled) || BoolMeta(m, PROFIT_LOCK_ENABLED, a.profitLockEnabled)
    || BoolMeta(m, GIVEBACK_ENABLED, a.givebackEnabled) || BoolMeta(m, BB_TRAIL_ENABLED, a.bbEnabled)
  }

  /** The position asks for management by its entries: it says so, or else names a rule. */
  ghost predicate AsksForManagement(m: Metadata)
  {
    if ATR_DYNAMIC_EXITS_ENABLED in m then BoolMeta(m, ATR_DYNAMIC_EXITS_ENABLED, false)
    else exists k :: k in {ATR_STOP_ENABLED, ATR_TAKE_PROFIT_ENABLED, ATR_TRAILING_ENABLED, BREAKEVEN_ENABLED,
                           PROFIT_LOCK_ENABLED, GIVEBACK_ENABLED, BB_TRAIL_ENABLED} && BoolMeta(m, k, false)
  }

  ghost predicate ManagedOn(p: Position, c: Candle, atr: Option<real>, a: ExitSettings)
  {
    && atr.Some? && atr.value > 0.0 && p.openedAt <= c.closeTime && SomeRuleOn(p, a)
    && (AsksForManagement(p.metadata) || BoolMeta(p.metadata, BB_TRAIL_ENABLED, a.bbEnabled)
        || BoolMeta(p.metadata, GIVEBACK_ENABLED, a.givebackEnabled))
  }

  lemma AsksIsEnabled(m: Metadata)
    ensures ExitTriggers.DynamicExitsEnabled(m) <==> AsksForManagement(m)
  {
    assert BoolMeta(m, ATR_STOP_ENABLED, false) || BoolMeta(m, ATR_TAKE_PROFIT_ENABLED, false)
           || BoolMeta(m, ATR_TRAILING_ENABLED, false) || BoolMeta(m, BREAKEVEN_ENABLED, false)
           || BoolMeta(m, PROFIT_LOCK_ENABLED, false) || BoolMeta(m, GIVEBACK_ENABLED, false)
           || BoolMeta(m, BB_TRAIL_ENABLED, false)
           <==> exists k :: k in {ATR_STOP_ENABLED, ATR_TAKE_PROFIT_ENABLED, ATR_TRAILING_ENABLED, BREAKEVEN_ENABLED,
                                  PROFIT_LOCK_ENABLED, GIVEBACK_ENABLED, BB_TRAIL_ENABLED} && BoolMeta(m, k, false);
  }

  /** A position that is not managed is left alone; any other gets the update. */
  lemma ManagedExactly(cfg: BrokerConfig, p: Position, c: Candle, atr: Option<real>, a: ExitSettings,
                       band: Option<Band>)
    ensures UpdateDynamicExits(cfg, p, c, atr, a, band) ==
      if ManagedOn(p, c, atr, a) then Manage(cfg, p, c, atr.value, a, band) else Ok(p)
  {
    AsksIsEnabled(p.metadata);
  }

  // ------------------------------------------------------------------ breakeven and profit lock on their own

  /** None of the rules that move the stop is on but those named. */
  ghost predicate OnlyRules(p: Position, a: ExitSettings, breakeven: bool, lock: bool)
  {
    var m := p.metadata;
    && !(BoolMeta(m, ATR_STOP_ENABLED, a.stopEnabled) && Multiple(p, a) > 0.0)
    && !BoolMeta(m, GIVEBACK_ENABLED, a.givebackEnabled) && !BoolMeta(m, BB_TRAIL_ENABLED, a.bbEnabled)
    && !BoolMeta(m, ADAPTIVE_STOP_ENABLED, false)
    && BoolMeta(m, BREAKEVEN_ENABLED, a.breakevenEnabled) == breakeven
    && BoolMeta(m, PROFIT_LOCK_ENABLED, a.profitLockEnabled) == lock
  }

  /** The stop after a single protecting rule. */
  ghost predicate MovesAlone(p: Position, gain: real, activation: real, kept: real, stop: Option<real>)
  {
    var d, level := p.direction, PriceAt(p, kept);
    if gain >= activation && gain > kept && (p.stopLoss.None? || Tighter(d, level, p.stopLoss.value)) then
      stop == Some(level)
    else stop == p.stopLoss
  }

  /**
   * Breakeven on its own, for longs and shorts: the stop moves if and only if the profit has reached the activation and
   * the close is beyond the new level, which is the offset or the costs, whichever is more; and it moves there.
   */
  lemma BreakevenExactly(cfg: BrokerConfig, p: Position, c: Candle, atr: Option<real>, a: ExitSettings,
                         band: Option<Band>)
    requires Priced(cfg, p, c) && ManagedOn(p, c, atr, a) && OnlyRules(p, a, true, false) && Risk(p) > 0.0
    ensures var q := UpdateDynamicExits(cfg, p, c, atr, a, band);
      var activation := Times(DecMeta(p.metadata, BREAKEVEN_ACTIVATION_R, a.breakevenActivationR), Risk(p));
      var kept := Max(Times(DecMeta(p.metadata, BREAKEVEN_OFFSET_R, a.breakevenOffsetR), Risk(p)), Costs(cfg, p));
      q.Ok? && MovesAlone(p, Gain(p, c.close), activation, kept, q.value.stopLoss)
  {
    ManagedExactly(cfg, p, c, atr, a, band);
    StopAlone(cfg, p, c, atr.value, a, band);
  }

  /** And profit lock likewise. */
  lemma ProfitLockExactly(cfg: BrokerConfig, p: Position, c: Candle, atr: Option<real>, a: ExitSettings,
                          band: Option<Band>)
    requires Priced(cfg, p, c) && ManagedOn(p, c, atr, a) && OnlyRules(p, a, false, true) && Risk(p) > 0.0
    ensures var q := UpdateDynamicExits(cfg, p, c, atr, a, band);
      var activation := Times(DecMeta(p.metadata, PROFIT_LOCK_ACTIVATION_R, a.profitLockActivationR), Risk(p));
      var kept := Max(Times(DecMeta(p.metadata, PROFIT_LOCK_R, a.profitLockR), Risk(p)), Costs(cfg, p));
      q.Ok? && MovesAlone(p, Gain(p, c.close), activation, kept, q.value.stopLoss)
  {
    ManagedExactly(cfg, p, c, atr, a, band);
    StopAlone(cfg, p, c, atr.value, a, band);
  }

  lemma NeverRaises(cfg: BrokerConfig, p: Position, c: Candle, atr: real, a: ExitSettings, band: Option<Band>)
    requires !(BoolMeta(p.metadata, ATR_STOP_ENABLED, a.stopEnabled) && Multiple(p, a) > 0.0)
    ensures Manage(cfg, p, c, atr, a, band).Ok?
  {
    RaisesExactly(p, c, atr, PlanOf(cfg, p, c, atr, a), band);
  }

  lemma OneOffer(d: Direction, offers: seq<Option<real>>, stop: Option<real>)
    requires TightestOf(d, offers, stop) && |offers| == 7 && offers[1].None? && (offers[2].None? || offers[3].None?)
    requires offers[4].None? && offers[5].None? && offers[6].None?
    ensures stop == Tighten(d, offers[0], if offers[2].Some? then offers[2] else offers[3])
  {
  }

  lemma OffersAlone(cfg: BrokerConfig, p: Position, c: Candle, atr: real, a: ExitSettings, band: Option<Band>)
    requires OnlyRules(p, a, true, false) || OnlyRules(p, a, false, true)
    ensures var offers := Offers(cfg, p, c, atr, a, band);
      && |offers| == 7 && offers[0] == p.stopLoss && offers[2] == BreakevenOffer(cfg, p, c, atr, a)
      && offers[3] == LockOffer(cfg, p, c, atr, a)
      && offers[1].None? && offers[4].None? && offers[5].None? && offers[6].None?
      && (offers[2].None? || offers[3].None?)
  {
  }

  lemma StopAlone(cfg: BrokerConfig, p: Position, c: Candle, atr: real, a: ExitSettings, band: Option<Band>)
    requires Priced(cfg, p, c) && atr > 0.0
    requires OnlyRules(p, a, true, false) || OnlyRules(p, a, false, true)
    ensures Manage(cfg, p, c, atr, a, band).Ok?
    ensures Manage(cfg, p, c, atr, a, band).value.stopLoss ==
      Tighten(p.direction, p.stopLoss,
              if OnlyRules(p, a, true, false) then BreakevenOffer(cfg, p, c, atr, a) else LockOffer(cfg, p, c, atr, a))
  {
    NeverRaises(cfg, p, c, atr, a, band);
    NewStopIsTightest(cfg, p, c, atr, a, band);
    OffersAlone(cfg, p, c, atr, a, band);
    OneOffer(p.direction, Offers(cfg, p, c, atr, a, band), Manage(cfg, p, c, atr, a, band).value.stopLoss);
  }

  // ------------------------------------------------------------------ thresholds that follow volatility

  lemma ScaledMax(x: real, y: real, k: real)
    requires k > 0.0
    ensures Times(Max(x, y), k) == Max(Times(x, k), Times(y, k))
    ensures Times(Min(x, y), k) == Min(Times(x, k), Times(y, k))
  {
    if x < y { TimesStrict(k, x, y); }
    if y < x { TimesStrict(k, y, x); }
  }

  lemma ScaledBounds(x: real, low: real, high: real, k: real)
    requires k > 0.0
    ensures Times(Clamp(x, low, high), k) == Clamp(Times(x, k), Times(low, k), Times(high, k))
  {
    ScaledMax(x, low, k);
    ScaledMax(Max(x, low), high, k);
  }

  /** `x` times an amount given in R, in prices. */
  lemma InUnits(amount: real, unit: real, x: real)
    requires unit > 0.0
    ensures Times(Times(amount / unit, x), unit) == Times(amount, x) && Times(amount / unit, unit) == amount
  {
    var r := amount / unit;
    assert r * unit == amount;
    assert r * x * unit == r * unit * x;
  }

  lemma ActivationInPrices(breakeven: real, x: real, y: real, z: real, unit: real)
    requires unit > 0.0
    ensures Times(Clamp(Max(breakeven + x, y + z), breakeven, 4.00), unit) ==
      Clamp(Max(Times(breakeven, unit) + Times(x, unit), Times(y, unit) + Times(z, unit)), Times(breakeven, unit),
            Times(4.00, unit))
  {
    TimesSum(breakeven, x, unit);
    TimesSum(y, z, unit);
    ScaledMax(breakeven + x, y + z, unit);
    ScaledBounds(Max(breakeven + x, y + z), breakeven, 4.00, unit);
  }

  lemma LockInPrices(unit: real, trailing: real, activation: real)
    requires unit > 0.0
    ensures Times(Min(Max(0.0, activation - trailing / unit), activation * 0.70), unit) ==
      Min(Max(0.0, Times(activation, unit) - trailing), Times(activation, unit) * 0.70)
  {
    InUnits(trailing, unit, 1.0);
    TimesSum(activation - trailing / unit, trailing / unit, unit);
    ScaledMax(0.0, activation - trailing / unit, unit);
    ScaledMax(Max(0.0, activation - trailing / unit), activation * 0.70, unit);
    assert Times(activation * 0.70, unit) == Times(activation, unit) * 0.70;
  }

  /**
   * The adaptive thresholds in prices: breakeven follows the ATR, the profit lock waits for the ATR beyond that and for
   * the trailing distance, and what it locks stays behind the activation by that distance and by 30%.
   */
  lemma AdaptiveInPrices(factors: (real, real), atr: real, unit: real, trailing: real)
    requires unit > 0.0
    ensures var s := Adaptive(factors, atr, unit, trailing);
      var breakeven, activation := Times(s.breakevenR, unit), Times(s.lockActivationR, unit);
      && breakeven == Clamp(Times(atr, factors.0), Times(0.30, unit), Times(2.20, unit))
      && activation ==
        Clamp(Max(breakeven + Times(atr, factors.1), trailing + atr * 0.25), breakeven, Times(4.00, unit))
      && Times(s.lockR, unit) == Min(Max(0.0, activation - trailing), activation * 0.70)
  {
    var s, live, behind := Adaptive(factors, atr, unit, trailing), atr / unit, trailing / unit;
    InUnits(atr, unit, factors.0);
    InUnits(atr, unit, factors.1);
    InUnits(trailing, unit, 1.0);
    ScaledBounds(Times(live, factors.0), 0.30, 2.20, unit);
    assert Times(live * 0.25, unit) == Times(live, unit) * 0.25;
    ActivationInPrices(s.breakevenR, Times(live, factors.1), behind, live * 0.25, unit);
    LockInPrices(unit, trailing, s.lockActivationR);
  }

  /** The factors of each profile by its names. */
  lemma ProfilesByPatience()
    ensures ProfileFactors("momentum") == ProfileFactors("ignition") == (0.75, 0.45)
    ensures ProfileFactors("defensive") == ProfileFactors("mean") == (0.80, 0.50)
    ensures ProfileFactors("breakout") == ProfileFactors("runner") == (0.90, 0.60)
    ensures ProfileFactors("balanced") == (1.00, 0.70) && ProfileFactors("trend") == (1.10, 0.85)
  {
    Itself("momentum");
    Itself("ignition");
    DefensiveFactors();
    MeanFactors();
    BreakoutFactors();
    TrendFactors();
    BalancedFactors();
  }

  lemma Itself(text: string)
    ensures Mentions(text, text)
  {
    assert text[0..] == text;
  }

  lemma BreakoutFactors()
    ensures ProfileFactors("breakout") == ProfileFactors("runner") == (0.90, 0.60)
  {
    Itself("breakout");
    Itself("runner");
    Unmentioned("breakout", "momentum", 0);
    Unmentioned("breakout", "ignition", 0);
    Unmentioned("runner", "momentum", 0);
    Unmentioned("runner", "ignition", 0);
  }

  lemma DefensiveFactors()
    ensures ProfileFactors("defensive") == (0.80, 0.50)
  {
    Itself("defensive");
    Unmentioned("defensive", "momentum", 0);
    Unmentioned("defensive", "ignition", 1);
    Unmentioned("defensive", "breakout", 0);
    Unmentioned("defensive", "runner", 0);
  }

  lemma MeanFactors()
    ensures ProfileFactors("mean") == (0.80, 0.50)
  {
    Itself("mean");
    Unmentioned("mean", "momentum", 1);
    Unmentioned("mean", "ignition", 0);
    Unmentioned("mean", "breakout", 0);
    Unmentioned("mean", "runner", 0);
  }

  lemma TrendFactors()
    ensures ProfileFactors("trend") == (1.10, 0.85)
  {
    Itself("trend");
    Unmentioned("trend", "momentum", 0);
    Unmentioned("trend", "ignition", 0);
    Unmentioned("trend", "breakout", 0);
    Unmentioned("trend", "runner", 1);
    Unmentioned("trend", "defensive", 2);
    Unmentioned("trend", "mean", 0);
  }

  lemma BalancedFactors()
    ensures ProfileFactors("balanced") == (1.00, 0.70)
  {
    Unmentioned("balanced", "momentum", 0);
    Unmentioned("balanced", "ignition", 0);
    Unmentioned("balanced", "breakout", 1);
    Unmentioned("balanced", "runner", 0);
    Unmentioned("balanced", "defensive", 2);
    Unmentioned("balanced", "mean", 0);
    Unmentioned("balanced", "trend", 0);
  }

  /** A text without one of a word's letters does not mention the word. */
  lemma Unmentioned(text: string, word: string, k: nat)
    requires k < |word| && word[k] !in text
    ensures !Mentions(text, word)
  {
    if Mentions(text, word) { LetterIn(text, word, k); }
  }

  lemma LetterIn(text: string, word: string, k: nat)
    requires Mentions(text, word) && k < |word|
    ensures word[k] in text
  {
    var i :| 0 <= i <= |text| && word <= text[i..];
    assert text[i + k] == text[i..][k] == word[k];
  }

  // ------------------------------------------------------------------ the target

  /** So far beyond a price, but never at zero or below. */
  function Beyond(p: Position, from: real, distance: real): real
  {
    Max(from + p.direction.Sign() * distance, 0.00000001)
  }

  function TargetMultiple(p: Position, a: ExitSettings): real
  {
    DecMeta(p.metadata, ATR_TAKE_PROFIT_MULTIPLE, a.takeProfitMultiple)
  }

  /** How targets are managed; not at all where they are off. */
  ghost function ModeInForce(p: Position, a: ExitSettings): TargetMode
  {
    var m := p.metadata;
    if !BoolMeta(m, ATR_TAKE_PROFIT_ENABLED, a.takeProfitEnabled) || TargetMultiple(p, a) <= 0.0 then NoTarget
    else if ATR_TAKE_PROFIT_MODE in m then ModeOf(m[ATR_TAKE_PROFIT_MODE])
    else a.takeProfitMode
  }

  /** The target after an update in this mode, with this distance, the best close of a trail being `from`. */
  ghost predicate TargetMoves(p: Position, mode: TargetMode, from: real, distance: real, target: Option<real>)
  {
    var atEntry := Beyond(p, p.entryPrice, distance);
    if mode == NoTarget then target == if Holds(Get(p.metadata, MANUAL_TAKE_PROFIT_PCT)) then p.takeProfit else None
    else if mode == FixedTarget || mode == TrailingAtr then target == p.takeProfit
    else if mode == EntryAtr then target == Some(atEntry)
    else
      var current := if Truthy(p.takeProfit) then p.takeProfit.value else atEntry;
      target == Some(Tightest(p.direction, current, Beyond(p, from, distance)))
  }

  /**
   * An update clears the target where targets are off, unless it was set by hand, keeps it in the fixed modes, and else
   * places it so many ATRs beyond the entry or, never nearer than before, beyond the best close.
   */
  lemma TargetRule(cfg: BrokerConfig, p: Position, c: Candle, atr: real, a: ExitSettings, band: Option<Band>)
    requires atr > 0.0 && Manage(cfg, p, c, atr, a, band).Ok?
    ensures TargetMoves(p, ModeInForce(p, a), From(p, c, a), atr * TargetMultiple(p, a),
                        Manage(cfg, p, c, atr, a, band).value.takeProfit)
  {
    var plan := PlanOf(cfg, p, c, atr, a);
    PlanMeasures(cfg, p, c, atr, a);
    PlanTargets(cfg, p, c, atr, a);
    TargetIs(p, plan.f, plan.best, plan.targetDistance);
  }

  lemma PlanTargets(cfg: BrokerConfig, p: Position, c: Candle, atr: real, a: ExitSettings)
    ensures var plan := PlanOf(cfg, p, c, atr, a);
      plan.f.s.takeProfitMode == ModeInForce(p, a) && plan.targetDistance == atr * TargetMultiple(p, a)
  {
  }

  lemma TargetIs(p: Position, f: Frame, from: real, distance: real)
    ensures TargetMoves(p, f.s.takeProfitMode, from, distance, NewTarget(p, f, from, distance))
  {
    Signed(p.direction, distance);
  }

  // ------------------------------------------------------------------ what one update hands to the next

  /** The entries in the order they are written. */
  lemma WrittenAs(p: Position, c: Candle, atr: real, plan: Plan, band: Option<Band>)
    returns (kind: Value, bb: Option<BbTrail>)
    requires ManageWith(p, c, atr, plan, band).Ok?
    ensures bb == BbOf(p, plan.m, plan.f, plan.best, band, atr)
    ensures ManageWith(p, c, atr, plan, band).value.metadata ==
      plan.m + (map[ADAPTIVE_STOP_ENABLED := Flag(BoolMeta(p.metadata, ADAPTIVE_STOP_ENABLED, false))]
                + BaseEntries(plan.f, plan.best, kind) + GivebackEntries(plan.f) + BbEntries(plan.f, bb)
                + AdaptiveEntries(plan.adaptive))
  {
    bb := BbOf(p, plan.m, plan.f, plan.best, band, atr);
    var plain := PlainStop(p, plan.f, plan.best, plan.distance).value;
    kind := FinalKind(p, plan.f, FinalStop(p.direction, plain, plan.f, bb), bb);
  }

  /** The keys of the ATR settings stand together. */
  predicate AtrKey(k: Key) { ATR_DYNAMIC_EXITS_ENABLED <= k <= ATR_BEST_PRICE }

  lemma OthersMissAtr(f: Frame, bb: Option<BbTrail>, a: Option<RSettings>, k: Key)
    requires AtrKey(k)
    ensures k !in GivebackEntries(f) && k !in BbEntries(f, bb) && k !in AdaptiveEntries(a)
  {
  }

  lemma BaseWritten(p: Position, c: Candle, atr: real, plan: Plan, band: Option<Band>, k: Key)
    requires ManageWith(p, c, atr, plan, band).Ok? && AtrKey(k) && k != ATR_ENTRY_ATR
    ensures var m, base := ManageWith(p, c, atr, plan, band).value.metadata, BaseEntries(plan.f, plan.best, Null);
      k in base && k in m && m[k] == base[k]
  {
    var kind, bb := WrittenAs(p, c, atr, plan, band);
    OthersMissAtr(plan.f, bb, plan.adaptive, k);
    BaseHolds(plan.f, plan.best, kind, k);
  }

  lemma BaseHolds(f: Frame, best: real, kind: Value, k: Key)
    requires AtrKey(k) && k != ATR_ENTRY_ATR
    ensures k in BaseEntries(f, best, kind) && BaseEntries(f, best, kind)[k] == BaseEntries(f, best, Null)[k]
  {
  }

  /** The ATR entries of a managed position. */
  ghost predicate Frozen(f: Frame, best: real, m: Metadata)
  {
    && Get(m, ATR_DYNAMIC_EXITS_ENABLED) == Flag(true) && ATR_DYNAMIC_EXITS_ENABLED in m
    && Get(m, ATR_STOP_ENABLED) == Flag(f.s.stopEnabled)
    && Get(m, ATR_TAKE_PROFIT_ENABLED) == Flag(f.s.takeProfitEnabled)
    && Get(m, ATR_TRAILING_ENABLED) == Flag(f.s.trailingEnabled) && Get(m, ATR_STOP_MULTIPLE) == Num(f.s.stopMultiple)
    && Get(m, ATR_TAKE_PROFIT_MULTIPLE) == Num(f.s.takeProfitMultiple)
    && Get(m, ATR_TRAILING_MULTIPLE) == OptNum(f.s.trailingMultiple)
    && ATR_TAKE_PROFIT_MODE in m && m[ATR_TAKE_PROFIT_MODE] == ModeWord(f.s.takeProfitMode)
    && Get(m, ATR_BEST_PRICE) == Num(best)
  }

  lemma WritesFrozen(p: Position, c: Candle, atr: real, plan: Plan, band: Option<Band>)
    requires ManageWith(p, c, atr, plan, band).Ok?
    ensures Frozen(plan.f, plan.best, ManageWith(p, c, atr, plan, band).value.metadata)
  {
    var m, base := ManageWith(p, c, atr, plan, band).value.metadata, BaseEntries(plan.f, plan.best, Null);
    forall k | AtrKey(k) && k != ATR_ENTRY_ATR ensures k in m && k in base && m[k] == base[k] {
      BaseWritten(p, c, atr, plan, band, k);
    }
    BaseIsFrozen(plan.f, plan.best, m);
  }

  lemma BaseIsFrozen(f: Frame, best: real, m: Metadata)
    requires forall k :: AtrKey(k) && k != ATR_ENTRY_ATR ==> k in m && k in BaseEntries(f, best, Null)
                                                             && m[k] == BaseEntries(f, best, Null)[k]
    ensures Frozen(f, best, m)
  {
  }

  lemma ModeRead(mode: TargetMode)
    ensures ModeOf(ModeWord(mode)) == mode
  {
  }

  /** The settings a plan resolves are those in force. */
  lemma PlanResolves(cfg: BrokerConfig, p: Position, c: Candle, atr: real, a: ExitSettings)
    ensures var s, m := FrameOf(cfg, p, c, atr, a).s, p.metadata;
      && s.stopEnabled == (BoolMeta(m, ATR_STOP_ENABLED, a.stopEnabled) && Multiple(p, a) > 0.0)
      && s.takeProfitEnabled == (BoolMeta(m, ATR_TAKE_PROFIT_ENABLED, a.takeProfitEnabled)
                                 && TargetMultiple(p, a) > 0.0)
      && s.trailingEnabled == BoolMeta(m, ATR_TRAILING_ENABLED, a.trailingEnabled)
      && s.stopMultiple == Multiple(p, a) && s.takeProfitMultiple == TargetMultiple(p, a)
      && s.trailingMultiple == Some(TrailMultiple(p, a)) && s.takeProfitMode == ModeInForce(p, a)
  {
  }

  /**
   * The ATR settings are frozen by the first update: later updates work with them whatever their arguments, and the
   * best close of the trail is remembered.
   */
  lemma SettingsFreeze(cfg: BrokerConfig, p: Position, c: Candle, atr: real, a: ExitSettings, band: Option<Band>,
                       later: ExitSettings)
    requires atr > 0.0 && Manage(cfg, p, c, atr, a, band).Ok?
    ensures var q := Manage(cfg, p, c, atr, a, band).value;
      && AsksForManagement(q.metadata) && DecMeta(q.metadata, ATR_BEST_PRICE, 0.0) == From(p, c, a)
      && DecMeta(q.metadata, ATR_ENTRY_ATR, 0.0) == AtrOnRecord(p.metadata, atr)
      && Multiple(q, later) == Multiple(p, a) && TrailMultiple(q, later) == TrailMultiple(p, a)
      && TargetMultiple(q, later) == TargetMultiple(p, a) && ModeInForce(q, later) == ModeInForce(p, a)
      && BoolMeta(q.metadata, ATR_TRAILING_ENABLED, later.trailingEnabled)
         == BoolMeta(p.metadata, ATR_TRAILING_ENABLED, a.trailingEnabled)
      && BoolMeta(q.metadata, ATR_STOP_ENABLED, later.stopEnabled)
         == (BoolMeta(p.metadata, ATR_STOP_ENABLED, a.stopEnabled) && Multiple(p, a) > 0.0)
  {
    var plan := PlanOf(cfg, p, c, atr, a);
    EntryAtrKept(p, c, atr, plan, band);
    RecordIs(p, atr);
    PlanMeasures(cfg, p, c, atr, a);
    PlanResolves(cfg, p, c, atr, a);
    WritesFrozen(p, c, atr, plan, band);
    FrozenReads(plan.f, plan.best, Manage(cfg, p, c, atr, a, band).value, later);
  }

  /** The ATR at the first update stays on record. */
  lemma EntryAtrKept(p: Position, c: Candle, atr: real, plan: Plan, band: Option<Band>)
    requires ManageWith(p, c, atr, plan, band).Ok? && plan.m == Captured(p, atr)
    ensures Get(ManageWith(p, c, atr, plan, band).value.metadata, ATR_ENTRY_ATR) == Get(plan.m, ATR_ENTRY_ATR)
  {
    var kind, bb := WrittenAs(p, c, atr, plan, band);
    OthersMissAtr(plan.f, bb, plan.adaptive, ATR_ENTRY_ATR);
    BaseLacks(plan.f, plan.best, kind);
    NotWritten(plan.m, map[ADAPTIVE_STOP_ENABLED := Flag(BoolMeta(p.metadata, ADAPTIVE_STOP_ENABLED, false))],
               BaseEntries(plan.f, plan.best, kind), GivebackEntries(plan.f), BbEntries(plan.f, bb),
               AdaptiveEntries(plan.adaptive), ATR_ENTRY_ATR);
  }

  /** The ATR recorded with the position, else this one; an entry that is no number stands, and counts as zero. */
  function AtrOnRecord(m: Metadata, atr: real): real
  {
    if ATR_ENTRY_ATR in m then DecMeta(m, ATR_ENTRY_ATR, 0.0) else atr
  }

  lemma BaseLacks(f: Frame, best: real, kind: Value)
    ensures ATR_ENTRY_ATR !in BaseEntries(f, best, kind)
  {
  }

  lemma RecordIs(p: Position, atr: real)
    ensures AsDecimal(Get(Captured(p, atr), ATR_ENTRY_ATR)) ==
      if ATR_ENTRY_ATR in p.metadata then Decimal(p.metadata, ATR_ENTRY_ATR) else Some(atr)
  {
  }

  lemma NotWritten(m: Metadata, x1: Metadata, x2: Metadata, x3: Metadata, x4: Metadata, x5: Metadata, k: Key)
    requires k !in x1 && k !in x2 && k !in x3 && k !in x4 && k !in x5
    ensures Get(m + (x1 + x2 + x3 + x4 + x5), k) == Get(m, k)
  {
  }

  /** What later updates read. */
  lemma FrozenReads(f: Frame, best: real, q: Position, later: ExitSettings)
    requires Frozen(f, best, q.metadata)
    ensures AsksForManagement(q.metadata) && DecMeta(q.metadata, ATR_BEST_PRICE, 0.0) == best
    ensures Multiple(q, later) == f.s.stopMultiple && TargetMultiple(q, later) == f.s.takeProfitMultiple
    ensures var x := f.s.trailingMultiple;
      x.Some? && (x.value > 0.0 || x.value == f.s.stopMultiple) ==> TrailMultiple(q, later) == x.value
    ensures BoolMeta(q.metadata, ATR_TRAILING_ENABLED, later.trailingEnabled) == f.s.trailingEnabled
    ensures BoolMeta(q.metadata, ATR_STOP_ENABLED, later.stopEnabled) == f.s.stopEnabled
    ensures ModeInForce(q, later) ==
      if f.s.takeProfitEnabled && f.s.takeProfitMultiple > 0.0 then f.s.takeProfitMode else NoTarget
  {
    ModeRead(f.s.takeProfitMode);
  }

  /** The Bollinger trail is active on this candle. */
  ghost predicate BbOn(p: Position, c: Candle, a: ExitSettings, b: Band)
  {
    || BoolMeta(p.metadata, BB_TRAIL_ACTIVE, false)
    || (InProfitBy(p, c, DecMeta(p.metadata, BB_TRAIL_ACTIVATION_R, a.bb.activationR)) && Gain(p, b.middle) > 0.0)
  }

  /** The share to close at the target, where the trail is to close part of the position there. */
  ghost function PartAtTarget(p: Position, a: ExitSettings): Option<real>
  {
    var share := DecMeta(p.metadata, BB_TRAIL_PARTIAL_CLOSE_PCT, a.bbPartialPct);
    if BoolMeta(p.metadata, BB_TRAIL_PARTIAL_CLOSE_AT_TP, a.bbPartialAtTp) && 0.0 < share < 1.0 then Some(share)
    else None
  }

  /** The trail's entries after an update. */
  ghost predicate TrailKept(p: Position, c: Candle, atr: real, a: ExitSettings, b: Band, m: Metadata)
  {
    var stop := if BbOn(p, c, a, b) then BbPrice(p, atr, a, b) else Decimal(p.metadata, BB_TRAIL_STOP);
    && Get(m, BB_TRAIL_ACTIVE) == Flag(BbOn(p, c, a, b))
    && Get(m, BB_TRAIL_STOP) == (if stop.Some? && stop.value > 0.0 then Num(stop.value) else Null)
    && Get(m, BB_TRAIL_FORCE_CLOSE) ==
       Flag(InProfitBy(p, c, DecMeta(p.metadata, BB_TRAIL_FORCE_CLOSE_R, a.bb.forceCloseR)))
    && (BbOn(p, c, a, b) && PartAtTarget(p, a).Some? ==>
          Get(m, TP_IS_PARTIAL_CLOSE) == Flag(true)
          && Get(m, BB_TRAIL_PARTIAL_CLOSE_PCT) == Num(PartAtTarget(p, a).value))
  }

  predicate BbKey(k: Key)
  {
    || k == BB_TRAIL_ACTIVE || k == BB_TRAIL_STOP || k == BB_TRAIL_FORCE_CLOSE || k == TP_IS_PARTIAL_CLOSE
    || k == BB_TRAIL_PARTIAL_CLOSE_PCT
  }

  lemma BbWritten(p: Position, c: Candle, atr: real, plan: Plan, band: Option<Band>, k: Key)
    requires ManageWith(p, c, atr, plan, band).Ok? && BbKey(k)
    requires k in BbEntries(plan.f, BbOf(p, plan.m, plan.f, plan.best, band, atr))
    ensures Get(ManageWith(p, c, atr, plan, band).value.metadata, k) ==
      BbEntries(plan.f, BbOf(p, plan.m, plan.f, plan.best, band, atr))[k]
  {
    var kind, bb := WrittenAs(p, c, atr, plan, band);
    AdaptiveMisses(plan.adaptive, k);
    LastWins(plan.m, map[ADAPTIVE_STOP_ENABLED := Flag(BoolMeta(p.metadata, ADAPTIVE_STOP_ENABLED, false))]
                     + BaseEntries(plan.f, plan.best, kind) + GivebackEntries(plan.f), BbEntries(plan.f, bb),
             AdaptiveEntries(plan.adaptive), k);
  }

  lemma AdaptiveMisses(a: Option<RSettings>, k: Key)
    requires k != BREAKEVEN_ACTIVATION_R && k != PROFIT_LOCK_ACTIVATION_R && k != PROFIT_LOCK_R
    ensures k !in AdaptiveEntries(a)
  {
  }

  /** An entry written last stands. */
  lemma LastWins(m: Metadata, before: Metadata, own: Metadata, after: Metadata, k: Key)
    requires k !in after && k in own
    ensures Get(m + (before + own + after), k) == own[k]
  {
  }

  lemma BbStateIs(plan: Plan, cfg: BrokerConfig, p: Position, c: Candle, atr: real, a: ExitSettings, b: Band)
    requires Shows(plan.f, cfg, p, c) && Trailing(plan.f, p, a) && plan.m == Captured(p, atr) && plan.f.s.bbEnabled
    requires plan.f.s.bb.forceCloseR == DecMeta(p.metadata, BB_TRAIL_FORCE_CLOSE_R, a.bb.forceCloseR)
    ensures var bb := BbOf(p, plan.m, plan.f, plan.best, Some(b), atr);
      var stop := if BbOn(p, c, a, b) then BbPrice(p, atr, a, b) else Decimal(p.metadata, BB_TRAIL_STOP);
      && bb.Some? && bb.value.active == BbOn(p, c, a, b)
      && bb.value.stop == (if stop.Some? && stop.value > 0.0 then stop else None)
      && bb.value.forceClose ==
         InProfitBy(p, c, DecMeta(p.metadata, BB_TRAIL_FORCE_CLOSE_R, a.bb.forceCloseR))
  {
    var q := p.(metadata := plan.m[ATR_BEST_PRICE := Num(plan.best)]);
    BbTrailIs(q, p, plan.f.CurrentR(), b, atr, plan.f.s.bb, a);
    ReachedIsInProfit(plan.f, cfg, p, c, plan.f.s.bb.activationR);
    ReachedIsInProfit(plan.f, cfg, p, c, plan.f.s.bb.forceCloseR);
    assert Decimal(q.metadata, BB_TRAIL_STOP) == Decimal(p.metadata, BB_TRAIL_STOP);
  }

  lemma PlanParts(cfg: BrokerConfig, p: Position, c: Candle, atr: real, a: ExitSettings)
    ensures var s := FrameOf(cfg, p, c, atr, a).s;
      && s.bbPartialAtTp == BoolMeta(p.metadata, BB_TRAIL_PARTIAL_CLOSE_AT_TP, a.bbPartialAtTp)
      && s.bbPartialPct == DecMeta(p.metadata, BB_TRAIL_PARTIAL_CLOSE_PCT, a.bbPartialPct)
      && s.bb.forceCloseR == DecMeta(p.metadata, BB_TRAIL_FORCE_CLOSE_R, a.bb.forceCloseR)
  {
  }

  lemma BbEntriesHold(f: Frame, bb: BbTrail)
    ensures var m := BbEntries(f, Some(bb));
      && BB_TRAIL_ACTIVE in m && m[BB_TRAIL_ACTIVE] == Flag(bb.active)
      && BB_TRAIL_STOP in m && m[BB_TRAIL_STOP] == OptNum(bb.stop)
      && BB_TRAIL_FORCE_CLOSE in m && m[BB_TRAIL_FORCE_CLOSE] == Flag(bb.forceClose)
      && (f.s.bbPartialAtTp && bb.active && 0.0 < f.s.bbPartialPct < 1.0 ==>
            && TP_IS_PARTIAL_CLOSE in m && m[TP_IS_PARTIAL_CLOSE] == Flag(true)
            && BB_TRAIL_PARTIAL_CLOSE_PCT in m && m[BB_TRAIL_PARTIAL_CLOSE_PCT] == Num(f.s.bbPartialPct))
  {
  }

  /** What the Bollinger trail hands on: whether it is active, its stop, a forced exit, and the part to close. */
  lemma TrailRemembered(cfg: BrokerConfig, p: Position, c: Candle, atr: real, a: ExitSettings, b: Band)
    requires atr > 0.0 && Manage(cfg, p, c, atr, a, Some(b)).Ok? && BoolMeta(p.metadata, BB_TRAIL_ENABLED, a.bbEnabled)
    ensures TrailKept(p, c, atr, a, b, Manage(cfg, p, c, atr, a, Some(b)).value.metadata)
  {
    var plan := PlanOf(cfg, p, c, atr, a);
    PlanReads(cfg, p, c, atr, a);
    PlanParts(cfg, p, c, atr, a);
    BbStateIs(plan, cfg, p, c, atr, a, b);
    var bb := BbOf(p, plan.m, plan.f, plan.best, Some(b), atr).value;
    BbEntriesHold(plan.f, bb);
    BbWritten(p, c, atr, plan, Some(b), BB_TRAIL_ACTIVE);
    BbWritten(p, c, atr, plan, Some(b), BB_TRAIL_STOP);
    BbWritten(p, c, atr, plan, Some(b), BB_TRAIL_FORCE_CLOSE);
    if BbOn(p, c, a, b) && PartAtTarget(p, a).Some? {
      BbWritten(p, c, atr, plan, Some(b), TP_IS_PARTIAL_CLOSE);
      BbWritten(p, c, atr, plan, Some(b), BB_TRAIL_PARTIAL_CLOSE_PCT);
    }
  }

  lemma GivebackWritten(p: Position, c: Candle, atr: real, plan: Plan, band: Option<Band>, k: Key)
    requires ManageWith(p, c, atr, plan, band).Ok? && (k == GIVEBACK_ACTIVE || k == GIVEBACK_MAX_R_HIT)
    ensures k in GivebackEntries(plan.f)
    ensures Get(ManageWith(p, c, atr, plan, band).value.metadata, k) == GivebackEntries(plan.f)[k]
  {
    var kind, bb := WrittenAs(p, c, atr, plan, band);
    AdaptiveMisses(plan.adaptive, k);
    BbMissesGiveback(plan.f, bb, k);
    var before := map[ADAPTIVE_STOP_ENABLED := Flag(BoolMeta(p.metadata, ADAPTIVE_STOP_ENABLED, false))]
      + BaseEntries(plan.f, plan.best, kind);
    var after := BbEntries(plan.f, bb) + AdaptiveEntries(plan.adaptive);
    MergesFrom(before + GivebackEntries(plan.f), BbEntries(plan.f, bb), AdaptiveEntries(plan.adaptive));
    LastWins(plan.m, before, GivebackEntries(plan.f), after, k);
  }

  lemma MergesFrom(x: Metadata, y: Metadata, z: Metadata)
    ensures x + y + z == x + (y + z)
  {
  }

  lemma BbMissesGiveback(f: Frame, bb: Option<BbTrail>, k: Key)
    requires k == GIVEBACK_ACTIVE || k == GIVEBACK_MAX_R_HIT
    ensures k !in BbEntries(f, bb)
  {
  }

  /** What the giveback guard hands on: the best move so far, and whether it protects part of it. */
  lemma GivebackRemembered(cfg: BrokerConfig, p: Position, c: Candle, atr: real, a: ExitSettings, band: Option<Band>)
    requires Priced(cfg, p, c) && atr > 0.0 && Manage(cfg, p, c, atr, a, band).Ok?
    ensures var m, before := Manage(cfg, p, c, atr, a, band).value.metadata,
        DecMeta(p.metadata, GIVEBACK_MAX_R_HIT, DecMeta(p.metadata, MAX_R_HIT, 0.0));
      && Get(m, GIVEBACK_MAX_R_HIT) ==
         Num(if BoolMeta(p.metadata, GIVEBACK_ENABLED, a.givebackEnabled) && Risk(p) > 0.0 then BestMove(p, c)
             else before)
      && Get(m, GIVEBACK_ACTIVE) == Flag(GivebackOffer(p, c, a).Some?)
  {
    var plan := PlanOf(cfg, p, c, atr, a);
    PlanReads(cfg, p, c, atr, a);
    GivebackStateIs(plan.f, cfg, p, c, a);
    GivebackWritten(p, c, atr, plan, band, GIVEBACK_ACTIVE);
    GivebackWritten(p, c, atr, plan, band, GIVEBACK_MAX_R_HIT);
  }

  lemma GivebackStateIs(f: Frame, cfg: BrokerConfig, p: Position, c: Candle, a: ExitSettings)
    requires Shows(f, cfg, p, c) && GivesBack(f, p, c, a) && Priced(cfg, p, c)
    ensures var m, before := GivebackEntries(f), DecMeta(p.metadata, GIVEBACK_MAX_R_HIT,
                                                         DecMeta(p.metadata, MAX_R_HIT, 0.0));
      && m[GIVEBACK_MAX_R_HIT] ==
         Num(if BoolMeta(p.metadata, GIVEBACK_ENABLED, a.givebackEnabled) && Risk(p) > 0.0 then BestMove(p, c)
             else before)
      && m[GIVEBACK_ACTIVE] == Flag(GivebackOffer(p, c, a).Some?)
  {
    BufferNonNegative(cfg, p);
    ProtectedPositive(f);
    GivebackIs(f, cfg, p, c, a);
    if f.s.givebackEnabled && Risk(p) > 0.0 { BestMoveKept(f, cfg, p, c, a); }
  }

  lemma BestMoveKept(f: Frame, cfg: BrokerConfig, p: Position, c: Candle, a: ExitSettings)
    requires Shows(f, cfg, p, c) && GivesBack(f, p, c, a) && p.entryPrice > 0.0 && f.s.givebackEnabled && Risk(p) > 0.0
    ensures GivebackOf(f).Some? && GivebackOf(f).value.maxR == BestMove(p, c)
  {
    GivebackProtects(f, cfg, p, c, a);
  }

  // ------------------------------------------------------------------ the percentage trail

  /** What the percentage trail offers on a candle. */
  ghost function PctOffer(cfg: BrokerConfig, p: Position, c: Candle): Option<real>
  {
    var m, extreme := p.metadata, if p.direction.Long? then c.high else c.low;
    var activation := DecMeta(m, TRAILING_STOP_ACTIVATION_PCT, cfg.trailingActivationPct);
    var distance := DecMeta(m, TRAILING_STOP_DISTANCE_PCT, cfg.trailingDistancePct);
    var needed := if activation == 0.0 then cfg.trailingActivationPct else activation;
    var behind := if distance == 0.0 then cfg.trailingDistancePct else distance;
    var price := extreme - p.direction.Sign() * PercentOf(extreme, behind);
    if BoolMeta(m, TRAILING_STOP_ENABLED, cfg.trailingStopEnabled) && c.close > 0.0
      && !(BoolMeta(m, ATR_TRAILING_ENABLED, false) && BoolMeta(m, ATR_DYNAMIC_EXITS_ENABLED, false))
      && Gain(p, extreme) >= PercentOf(p.entryPrice, needed) && price > 0.0
    then Some(price) else None
  }

  /**
   * The percentage trail moves a stop exactly when the candle's best price has gained the activation and the price so
   * far behind it is tighter; it moves it there, and never places a first stop.
   */
  lemma PctTrailExactly(cfg: BrokerConfig, p: Position, c: Candle)
    ensures var q, offer := UpdateTrailingStop(cfg, p, c), PctOffer(cfg, p, c);
      && q.stopLoss == (if p.stopLoss.None? then None else Tighten(p.direction, p.stopLoss, offer))
      && (q.stopLoss == p.stopLoss ==> q == p)
      && q == p.(stopLoss := q.stopLoss, updatedAt := q.updatedAt, metadata := q.metadata)
  {
    var m, extreme := p.metadata, if p.direction.Long? then c.high else c.low;
    CandidateIs(cfg, p, extreme, DecMeta(m, TRAILING_STOP_ACTIVATION_PCT, cfg.trailingActivationPct),
                DecMeta(m, TRAILING_STOP_DISTANCE_PCT, cfg.trailingDistancePct));
  }

  lemma CandidateIs(cfg: BrokerConfig, p: Position, extreme: real, activation: real, distance: real)
    ensures var needed := if activation == 0.0 then cfg.trailingActivationPct else activation;
      var behind := if distance == 0.0 then cfg.trailingDistancePct else distance;
      var price := extreme - p.direction.Sign() * PercentOf(extreme, behind);
      PctTrailCandidate(cfg, p, extreme, activation, distance) ==
        if Gain(p, extreme) >= PercentOf(p.entryPrice, needed) && price > 0.0 then Some(price) else None
  {
    var needed := if activation == 0.0 then cfg.trailingActivationPct else activation;
    var behind := if distance == 0.0 then cfg.trailingDistancePct else distance;
    Percent(p.entryPrice, needed);
    Percent(extreme, behind);
    Signed(p.direction, extreme - p.entryPrice);
    Signed(p.direction, PercentOf(extreme, behind));
  }

  lemma Percent(x: real, pct: real)
    ensures Times(x, 1.0 + pct / 100.0) == x + PercentOf(x, pct) && Times(x, 1.0 - pct / 100.0) == x - PercentOf(x, pct)
  {
  }

  lemma Signed(d: Direction, x: real)
    ensures d.Sign() * x == if d.Long? then x else -x
  {
  }
}
