/** What the stop rules guarantee, candle after candle. */
module StopTheorems {
  import opened Common
  import opened Market
  import opened TrailPolicies
  import opened StopManagement
  import OrderBook

  /** `new` protects the position at least as well as `before` did. */
  ghost predicate NoLooser(d: Direction, before: Option<real>, after: Option<real>)
  {
    before.Some? ==> after.Some? && if d.Long? then after.value >= before.value else after.value <= before.value
  }

  // ------------------------------------------------------------------ stops only tighten

  /** The percentage trail moves the stop only to a strictly tighter, positive price. */
  lemma PctTrailTightens(cfg: BrokerConfig, p: Position, c: Candle)
    ensures var q := UpdateTrailingStop(cfg, p, c);
      && NoLooser(p.direction, p.stopLoss, q.stopLoss)
      && (q.stopLoss == p.stopLoss || (q.stopLoss.Some? && q.stopLoss.value > 0.0))
  {
  }

  lemma CombinedTightens(d: Direction, current: Option<real>, atrStop: Option<real>, managed: Option<real>)
    requires CombinedStop(d, current, atrStop, managed).Ok?
    ensures NoLooser(d, current, CombinedStop(d, current, atrStop, managed).value)
  {
  }

  lemma BbStopPositive(p: Position, m: Metadata, f: Frame, best: real, band: Option<Band>, atr: real)
    ensures var bb := BbOf(p, m, f, best, band, atr); BbApplies(f, bb) ==> bb.value.stop.value > 0.0
  {
  }

  /** The Bollinger trail is active on its own terms: earlier, or by this candle's R and middle band. */
  ghost predicate BbActive(p: Position, f: Frame, band: Band)
  {
    BoolMeta(p.metadata, BB_TRAIL_ACTIVE, false) || ShouldActivate(p, f.CurrentR(), f.s.bb.activationR, band.middle)
  }

  /** For a short, it has a stop to offer: the bands are wide and no unusable stop is kept, or a usable stop is. */
  ghost predicate BbOffers(p: Position, band: Band, atr: real)
  {
    var kept := Decimal(p.metadata, BB_TRAIL_STOP);
    if band.upper - band.lower >= atr * 0.5 then kept.None? || kept.value > 0.0 else kept.Some? && kept.value > 0.0
  }

  /**
   * A zero stop counts as no stop, so an active Bollinger stop replaces it -- unless the
   * ATR stop came out below zero and has already taken its place.
   */
  ghost predicate ZeroStopReplaced(p: Position, atr: real, plan: Plan, band: Option<Band>)
  {
    var f := plan.f;
    && !(f.s.stopEnabled && plan.best + plan.distance < 0.0)
    && f.s.bbEnabled && !f.s.bbObserveOnly && band.Some? && BbActive(p, f, band.value) && BbOffers(p, band.value, atr)
  }

  /** What the condition means for the stops the update computes. */
  lemma ZeroStopForm(p: Position, atr: real, plan: Plan, band: Option<Band>)
    requires p.direction.Short? && p.stopLoss == Some(0.0) && plan.m == Captured(p, atr)
    requires plan.f.direction.Short? && plan.f.close > 0.0 && plan.f.entry > 0.0 && plan.f.buffer >= 0.0
    requires PlainStop(p, plan.f, plan.best, plan.distance).Ok?
    ensures ZeroStopReplaced(p, atr, plan, band) <==>
      && PlainStop(p, plan.f, plan.best, plan.distance) == Ok(Some(0.0))
      && BbApplies(plan.f, BbOf(p, plan.m, plan.f, plan.best, band, atr))
  {
    ManagedNonZero(plan.f);
    var m := plan.m[ATR_BEST_PRICE := Num(plan.best)];
    assert Get(m, BB_TRAIL_ACTIVE) == Get(p.metadata, BB_TRAIL_ACTIVE);
    assert Get(m, BB_TRAIL_STOP) == Get(p.metadata, BB_TRAIL_STOP);
  }

  lemma FinalTightens(d: Direction, before: Option<real>, plain: Option<real>, f: Frame, bb: Option<BbTrail>)
    requires NoLooser(d, before, plain)
    requires BbApplies(f, bb) ==> bb.value.stop.value > 0.0
    requires d.Short? && before.Some? && before.value != 0.0 ==> plain != Some(0.0)
    ensures NoLooser(d, before, FinalStop(d, plain, f, bb))
       <==> !(d.Short? && before == Some(0.0) && plain == Some(0.0) && BbApplies(f, bb))
  {
  }

  /** The price-protecting stops are never placed at zero while prices are positive. */
  lemma ManagedNonZero(f: Frame)
    requires f.close > 0.0 && f.entry > 0.0 && f.buffer >= 0.0
    ensures ManagedStop(f).stop.Some? ==> ManagedStop(f).stop.value > 0.0
  {
    var b := f.BreakevenOffset();
    var l := f.LockOffset();
    assert b.Some? ==> f.AtOffset(b.value) > 0.0;
    assert l.Some? ==> f.AtOffset(l.value) > 0.0;
  }

  lemma CombinedNonZero(d: Direction, current: Option<real>, atrStop: Option<real>, managed: Option<real>)
    requires CombinedStop(d, current, atrStop, managed).Ok?
    requires current != Some(0.0) && managed != Some(0.0)
    ensures CombinedStop(d, current, atrStop, managed).value != Some(0.0)
  {
  }

  /** Costs are never negative, so neither is the buffer. */
  lemma BufferNonNegative(cfg: BrokerConfig, p: Position)
    requires cfg.Valid() && p.entryPrice > 0.0 && DecMeta(p.metadata, ENTRY_EFFECTIVE_FEE_RATE, 0.0) >= 0.0
    ensures CostBuffer(cfg, p) >= 0.0
  {
    RatesNonNegative(cfg);
    var re := DecMeta(p.metadata, ENTRY_EFFECTIVE_FEE_RATE, cfg.EffectiveRate(cfg.entryFeeType));
    var costs := re + cfg.EffectiveRate(cfg.exitFeeType) + cfg.StopSlippage() / 100.0;
    assert costs >= 0.0;
    TimesOrder(p.entryPrice, 0.0, costs);
  }

  lemma RatesNonNegative(cfg: BrokerConfig)
    requires cfg.Valid()
    ensures cfg.EffectiveRate(Maker) >= 0.0 && cfg.EffectiveRate(Taker) >= 0.0 && cfg.StopSlippage() >= 0.0
  {
    TimesOrder(cfg.makerFeeRate, 0.0, 1.0 + cfg.feeGstRate);
    TimesOrder(cfg.takerFeeRate, 0.0, 1.0 + cfg.feeGstRate);
  }

  lemma FeeNonNegative(cfg: BrokerConfig, quantity: real, t: FeeType)
    requires cfg.Valid() && quantity >= 0.0
    ensures cfg.Fee(quantity, t) >= 0.0
  {
    FeeIsEffectiveRate(cfg, quantity, t);
    RatesNonNegative(cfg);
    TimesOrder(quantity, 0.0, cfg.EffectiveRate(t));
  }

  /** Prices and costs make sense: what a position opened by the broker at positive prices has. */
  ghost predicate Priced(cfg: BrokerConfig, p: Position, c: Candle)
  {
    cfg.Valid() && p.entryPrice > 0.0 && c.close > 0.0 && DecMeta(p.metadata, ENTRY_EFFECTIVE_FEE_RATE, 0.0) >= 0.0
  }

  lemma ManageWithTightens(p: Position, c: Candle, atr: real, plan: Plan, band: Option<Band>)
    requires plan.f.close > 0.0 && plan.f.entry > 0.0 && plan.f.buffer >= 0.0
    requires plan.f.direction == p.direction && plan.m == Captured(p, atr)
    requires ManageWith(p, c, atr, plan, band).Ok?
    ensures var q := ManageWith(p, c, atr, plan, band).value;
      && (NoLooser(p.direction, p.stopLoss, q.stopLoss)
          <==> !(p.direction.Short? && p.stopLoss == Some(0.0) && ZeroStopReplaced(p, atr, plan, band)))
      && (p.stopLoss != Some(0.0) ==> q.stopLoss != Some(0.0))
  {
    var f := plan.f;
    var atrStop := if f.s.stopEnabled then Some(AtrStopAt(p.direction, plan.best, plan.distance)) else None;
    var managed := ManagedStop(f).stop;
    ManagedNonZero(f);
    CombinedTightens(p.direction, p.stopLoss, atrStop, managed);
    if p.stopLoss != Some(0.0) { CombinedNonZero(p.direction, p.stopLoss, atrStop, managed); }
    BbStopPositive(p, plan.m, f, plan.best, band, atr);
    assert p.stopLoss != Some(0.0) ==> ManageWith(p, c, atr, plan, band).value.stopLoss != Some(0.0);
    FinalTightens(p.direction, p.stopLoss, PlainStop(p, f, plan.best, plan.distance).value, f,
                  BbOf(p, plan.m, f, plan.best, band, atr));
    if p.direction.Short? && p.stopLoss == Some(0.0) { ZeroStopForm(p, atr, plan, band); }
  }

  /**
   * A managed candle never loosens the stop, for any combination of ATR, breakeven,
   * profit-lock, giveback and Bollinger settings. The one exception is a short whose stop
   * is exactly zero: there it loosens exactly when an active Bollinger stop replaces the zero.
   */
  lemma ManageTightens(cfg: BrokerConfig, p: Position, c: Candle, atr: real, a: ExitSettings, band: Option<Band>)
    requires Priced(cfg, p, c) && Manage(cfg, p, c, atr, a, band).Ok?
    ensures var q := Manage(cfg, p, c, atr, a, band).value;
      && (NoLooser(p.direction, p.stopLoss, q.stopLoss)
          <==> !(p.direction.Short? && p.stopLoss == Some(0.0)
                 && ZeroStopReplaced(p, atr, PlanOf(cfg, p, c, atr, a), band)))
      && (p.stopLoss != Some(0.0) ==> q.stopLoss != Some(0.0))
  {
    BufferNonNegative(cfg, p);
    ManageWithTightens(p, c, atr, PlanOf(cfg, p, c, atr, a), band);
  }

  /** The update raises exactly for a short with a stop whose ATR stop comes out at zero and nothing else to use. */
  lemma RaisesExactly(p: Position, c: Candle, atr: real, plan: Plan, band: Option<Band>)
    ensures ManageWith(p, c, atr, plan, band).Raises?
      <==> p.stopLoss.Some? && plan.f.s.stopEnabled && p.direction.Short? && plan.best + plan.distance == 0.0
           && ManagedStop(plan.f).stop.None?
  {
  }

  // ------------------------------------------------------------------ protected stops cover costs

  /** A breakeven or profit-lock level is being placed on this candle. */
  ghost predicate Protects(f: Frame) { f.BreakevenOffset().Some? || f.LockOffset().Some? }

  /** The stop leaves room for both fees and the stop slippage. */
  ghost predicate CostCovered(cfg: BrokerConfig, p: Position)
  {
    p.stopLoss.Some? &&
    if p.direction.Long? then p.stopLoss.value >= p.entryPrice + CostBuffer(cfg, p)
    else p.stopLoss.value <= p.entryPrice - CostBuffer(cfg, p)
  }

  /** A breakeven or profit-lock stop is placed strictly between the entry and the close. */
  lemma ProtectionBetweenEntryAndClose(f: Frame)
    requires Protects(f) && f.buffer > 0.0
    ensures ProtectedStop(f).stop.Some?
    ensures var stop := ProtectedStop(f).stop.value;
      if f.direction.Long? then f.entry < stop < f.close else f.close < stop < f.entry
  {
  }

  lemma ProtectedBeyondBuffer(f: Frame)
    requires Protects(f) && f.buffer >= 0.0 && f.entry > 0.0 && f.close > 0.0
    ensures var m := ManagedStop(f).stop;
      && m.Some? && m.value > 0.0
      && if f.direction.Long? then m.value >= f.entry + f.buffer else m.value <= f.entry - f.buffer
  {
    ManagedNonZero(f);
  }

  /** `stop` is at least as protective as `level`. */
  ghost predicate AtLeast(d: Direction, stop: Option<real>, level: real)
  {
    stop.Some? && if d.Long? then stop.value >= level else stop.value <= level
  }

  lemma CombinedAtLeast(d: Direction, current: Option<real>, atrStop: Option<real>, managed: real)
    requires managed > 0.0 && CombinedStop(d, current, atrStop, Some(managed)).Ok?
    ensures AtLeast(d, CombinedStop(d, current, atrStop, Some(managed)).value, managed)
  {
  }

  lemma FinalAtLeast(d: Direction, plain: Option<real>, f: Frame, bb: Option<BbTrail>, level: real)
    requires AtLeast(d, plain, level) && (d.Long? ==> level > 0.0) && (d.Short? ==> plain != Some(0.0))
    ensures AtLeast(d, FinalStop(d, plain, f, bb), level)
  {
  }

  lemma ManageWithCovers(p: Position, c: Candle, atr: real, plan: Plan, band: Option<Band>)
    requires plan.f.direction == p.direction
    requires Protects(plan.f) && plan.f.buffer >= 0.0 && plan.f.entry > 0.0 && plan.f.close > 0.0
    requires p.stopLoss != Some(0.0) && ManageWith(p, c, atr, plan, band).Ok?
    ensures AtLeast(p.direction, ManageWith(p, c, atr, plan, band).value.stopLoss,
      if p.direction.Long? then plan.f.entry + plan.f.buffer else plan.f.entry - plan.f.buffer)
  {
    var f := plan.f;
    ProtectedBeyondBuffer(f);
    var managed := ManagedStop(f).stop.value;
    var atrStop := if f.s.stopEnabled then Some(AtrStopAt(p.direction, plan.best, plan.distance)) else None;
    CombinedAtLeast(p.direction, p.stopLoss, atrStop, managed);
    CombinedNonZero(p.direction, p.stopLoss, atrStop, Some(managed));
    FinalAtLeast(p.direction, PlainStop(p, f, plan.best, plan.distance).value, f,
                 BbOf(p, plan.m, f, plan.best, band, atr), managed);
  }

  /** The entries a position's costs are computed from. */
  ghost predicate CostKey(k: Key) { k == ENTRY_FEE || k == ENTRY_FEES_TOTAL || k == ENTRY_EFFECTIVE_FEE_RATE }

  lemma BaseMisses(f: Frame, best: real, kind: Value, k: Key)
    requires CostKey(k)
    ensures k !in BaseEntries(f, best, kind)
  {
  }

  lemma BbMisses(f: Frame, bb: Option<BbTrail>, k: Key)
    requires CostKey(k)
    ensures k !in BbEntries(f, bb)
  {
  }

  /** A managed candle writes none of them. */
  lemma WrittenMisses(p: Position, f: Frame, best: real, kind: Value, bb: Option<BbTrail>, a: Option<RSettings>, k: Key)
    requires CostKey(k)
    ensures k !in Written(p, f, best, kind, bb, a)
  {
    BaseMisses(f, best, kind, k);
    assert k !in GivebackEntries(f);
    BbMisses(f, bb, k);
    assert k !in AdaptiveEntries(a);
  }

  /** Managing a position never touches what its costs are computed from. */
  lemma ManageKeepsCosts(p: Position, c: Candle, atr: real, plan: Plan, band: Option<Band>)
    requires plan.m == Captured(p, atr) && ManageWith(p, c, atr, plan, band).Ok?
    ensures var q := ManageWith(p, c, atr, plan, band).value;
      && SameCosts(p.metadata, q.metadata)
      && q == p.(stopLoss := q.stopLoss, takeProfit := q.takeProfit, updatedAt := q.updatedAt, metadata := q.metadata)
  {
    var f := plan.f;
    var plain := PlainStop(p, f, plan.best, plan.distance).value;
    var bb := BbOf(p, plan.m, f, plan.best, band, atr);
    var kind := FinalKind(p, f, FinalStop(p.direction, plain, f, bb), bb);
    var q := ManageWith(p, c, atr, plan, band).value;
    forall k | CostKey(k) ensures Get(q.metadata, k) == Get(p.metadata, k) {
      WrittenMisses(p, f, plan.best, kind, bb, plan.adaptive, k);
    }
  }

  /** Fees and entry rates are the same in both dictionaries. */
  ghost predicate SameCosts(m: Metadata, r: Metadata) { forall k :: CostKey(k) ==> Get(r, k) == Get(m, k) }

  lemma SameBuffer(cfg: BrokerConfig, p: Position, q: Position)
    requires SameCosts(p.metadata, q.metadata) && q.entryPrice == p.entryPrice
    ensures CostBuffer(cfg, q) == CostBuffer(cfg, p)
  {
    assert Get(q.metadata, ENTRY_EFFECTIVE_FEE_RATE) == Get(p.metadata, ENTRY_EFFECTIVE_FEE_RATE);
  }

  /** Once breakeven or profit lock fires, the position's stop covers its costs. */
  lemma ProtectionCovers(cfg: BrokerConfig, p: Position, c: Candle, atr: real, a: ExitSettings, band: Option<Band>)
    requires Priced(cfg, p, c) && Protects(FrameOf(cfg, p, c, atr, a))
    requires p.stopLoss != Some(0.0) && Manage(cfg, p, c, atr, a, band).Ok?
    ensures CostCovered(cfg, Manage(cfg, p, c, atr, a, band).value)
  {
    BufferNonNegative(cfg, p);
    var plan := PlanOf(cfg, p, c, atr, a);
    ManageWithCovers(p, c, atr, plan, band);
    ManageKeepsCosts(p, c, atr, plan, band);
    SameBuffer(cfg, p, Manage(cfg, p, c, atr, a, band).value);
  }

  // ------------------------------------------------------------------ what a stop-out costs

  /** The price a position is sold (bought) back at when its stop is hit inside a candle, without a book. */
  function StopFill(cfg: BrokerConfig, p: Position): real
    requires p.stopLoss.Some?
  {
    OrderBook.ApplySlippage(p.stopLoss.value, ExitSide(p.direction), cfg.StopSlippage())
  }

  /** Trade result of closing the whole position at a price: gross minus both fees. */
  function NetAt(cfg: BrokerConfig, p: Position, fill: real): real
  {
    p.UnrealizedPnl(fill) - cfg.Fee(p.MarginNotional(fill), cfg.exitFeeType) - p.EntryFees()
  }

  /** The entry fees carried are the entry rate on what is still open. */
  ghost predicate FeesMatch(cfg: BrokerConfig, p: Position)
  {
    var re := Decimal(p.metadata, ENTRY_EFFECTIVE_FEE_RATE);
    re.Some? && re.value >= 0.0 && p.EntryFees() == Times(p.Notional(), re.value)
  }

  /** (1 - c)(1 + a + b) <= 1 - re for c = re + a and b <= a^2. */
  lemma ShortFactor(re: real, a: real, b: real)
    requires re >= 0.0 && a >= 0.0 && 0.0 <= b <= a * a
    ensures (1.0 - (re + a)) * (1.0 + a + b) <= 1.0 - re
  {
    var c := re + a;
    assert c * a == re * a + a * a;
    assert re * a >= 0.0;
    assert c * b >= 0.0;
    assert (1.0 - c) * (1.0 + a + b) == 1.0 + a + b - (c + c * a + c * b);
  }
  lemma ProductBelowSquare(s: real, r: real)
    requires s >= 0.0 && r >= 0.0
    ensures 0.0 <= s * r <= (s + r) * (s + r)
  {
    assert (s + r) * (s + r) == s * s + s * r + r * s + r * r;
  }
  lemma LongFactor(re: real, a: real, b: real)
    requires re >= 0.0 && a >= 0.0 && 0.0 <= b
    ensures (1.0 + re + a) * (1.0 - a + b) >= 1.0 + re - (re + a) * a
  {
    var c := re + a;
    assert c * b >= 0.0;
    assert (1.0 + c) * (1.0 - a + b) == 1.0 - a + b + (c - c * a + c * b);
  }
  lemma ShortUnitNet(entry: real, stop: real, re: real, rx: real, s: real)
    requires entry > 0.0 && stop > 0.0 && re >= 0.0 && rx >= 0.0 && s >= 0.0
    requires stop <= entry - Times(entry, re + rx + s)
    ensures Times(stop, (1.0 + s) * (1.0 + rx)) <= Times(entry, 1.0 - re)
  {
    var a, b := s + rx, s * rx;
    var k := 1.0 + a + b;
    assert (1.0 + s) * (1.0 + rx) == k;
    ProductBelowSquare(s, rx);
    ShortFactor(re, a, b);
    var left := 1.0 - (re + a);
    assert stop <= Times(entry, left);
    TimesOrder(k, stop, Times(entry, left));
    assert Times(k, Times(entry, left)) == Times(entry, Times(left, k));
    TimesOrder(entry, left * k, 1.0 - re);
  }
  lemma LongUnitNet(entry: real, stop: real, re: real, rx: real, s: real)
    requires entry > 0.0 && re >= 0.0 && 0.0 <= rx <= 1.0 && 0.0 <= s <= 1.0
    requires stop >= entry + Times(entry, re + rx + s)
    ensures Times(stop, (1.0 - s) * (1.0 - rx)) >= Times(entry, 1.0 + re - (re + rx + s) * (s + rx))
  {
    var a, b := s + rx, s * rx;
    var k := 1.0 - a + b;
    assert (1.0 - s) * (1.0 - rx) == k;
    TimesOrder(1.0 - s, 0.0, 1.0 - rx);
    TimesOrder(s, 0.0, rx);
    LongFactor(re, a, b);
    var left := 1.0 + re + a;
    assert stop >= Times(entry, left);
    TimesOrder(k, Times(entry, left), stop);
    assert Times(k, Times(entry, left)) == Times(entry, Times(left, k));
    TimesOrder(entry, 1.0 + re - (re + a) * a, left * k);
  }

  /** Contract value of the open quantity. */
  function Size(p: Position): real { p.quantity * p.unit * p.rate }

  lemma SizeForm(p: Position, price: real)
    requires p.quantity > 0.0 && p.unit > 0.0 && p.rate > 0.0 && price >= 0.0
    ensures Size(p) > 0.0
    ensures p.MarginNotional(price) == Times(Size(p), price)
    ensures p.UnrealizedPnl(price) == if p.direction.Long? then Times(Size(p), price - p.entryPrice)
      else Times(Size(p), p.entryPrice - price)
  {
    var n := Size(p);
    assert p.quantity * p.unit > 0.0;
    assert n > 0.0;
    TimesOrder(n, 0.0, price);
    assert p.quantity * price * p.unit * p.rate == Times(n, price);
  }

  /** Net result per unit of contract value, closing at a non-negative price. */
  lemma NetForm(cfg: BrokerConfig, p: Position, fill: real)
    requires cfg.Valid() && p.quantity > 0.0 && p.unit > 0.0 && p.rate > 0.0
    requires p.entryPrice > 0.0 && fill >= 0.0 && FeesMatch(cfg, p)
    ensures var re := Decimal(p.metadata, ENTRY_EFFECTIVE_FEE_RATE).value; var rx := cfg.EffectiveRate(cfg.exitFeeType);
      NetAt(cfg, p, fill) == Times(Size(p),
        if p.direction.Long? then Times(fill, 1.0 - rx) - Times(p.entryPrice, 1.0 + re)
        else Times(p.entryPrice, 1.0 - re) - Times(fill, 1.0 + rx))
  {
    var re, rx, n := Decimal(p.metadata, ENTRY_EFFECTIVE_FEE_RATE).value, cfg.EffectiveRate(cfg.exitFeeType), Size(p);
    SizeForm(p, fill);
    SizeForm(p, p.entryPrice);
    FeeIsEffectiveRate(cfg, p.MarginNotional(fill), cfg.exitFeeType);
    assert p.Notional() == p.MarginNotional(p.entryPrice);
    assert p.EntryFees() == Times(n, Times(p.entryPrice, re));
    assert cfg.Fee(p.MarginNotional(fill), cfg.exitFeeType) == Times(n, Times(fill, rx));
    NetOfUnits(n, p.entryPrice, fill, re, rx);
  }

  /** Price move less both fees, a unit at a time: for a long, and for a short. */
  lemma NetOfUnits(n: real, entry: real, fill: real, re: real, rx: real)
    ensures Times(n, fill - entry) - Times(n, Times(fill, rx)) - Times(n, Times(entry, re))
      == Times(n, Times(fill, 1.0 - rx) - Times(entry, 1.0 + re))
    ensures Times(n, entry - fill) - Times(n, Times(fill, rx)) - Times(n, Times(entry, re))
      == Times(n, Times(entry, 1.0 - re) - Times(fill, 1.0 + rx))
  {
    TimesLess(n, fill - entry, Times(fill, rx), Times(entry, re));
    TimesLess(n, entry - fill, Times(fill, rx), Times(entry, re));
    assert Times(fill, 1.0 - rx) - Times(entry, 1.0 + re) == fill - entry - Times(fill, rx) - Times(entry, re);
    assert Times(entry, 1.0 - re) - Times(fill, 1.0 + rx) == entry - fill - Times(fill, rx) - Times(entry, re);
  }

  lemma TimesLess(n: real, x: real, y: real, z: real)
    ensures Times(n, x) - Times(n, y) - Times(n, z) == Times(n, x - y - z)
  {
  }

  lemma StopFillForm(cfg: BrokerConfig, p: Position)
    requires p.stopLoss.Some?
    ensures var s := cfg.StopSlippage() / 100.0;
      StopFill(cfg, p) == Times(p.stopLoss.value, if p.direction.Long? then 1.0 - s else 1.0 + s)
  {
  }

  /** A position whose stop-out the cost theorem is about. */
  ghost predicate CoveredPosition(cfg: BrokerConfig, p: Position)
  {
    && cfg.Valid() && p.quantity > 0.0 && p.unit > 0.0 && p.rate > 0.0 && p.entryPrice > 0.0
    && FeesMatch(cfg, p) && CostCovered(cfg, p) && p.stopLoss.value > 0.0
  }

  function EntryRate(p: Position): real { DecMeta(p.metadata, ENTRY_EFFECTIVE_FEE_RATE, 0.0) }

  /** The three cost rates: entry fee, exit fee, stop slippage. */
  lemma CoveredLevel(cfg: BrokerConfig, p: Position)
    requires CoveredPosition(cfg, p)
    ensures var re := EntryRate(p); var rx := cfg.EffectiveRate(cfg.exitFeeType); var s := cfg.StopSlippage() / 100.0;
      && re >= 0.0 && rx >= 0.0 && s >= 0.0
      && if p.direction.Long? then p.stopLoss.value >= p.entryPrice + Times(p.entryPrice, re + rx + s)
         else p.stopLoss.value <= p.entryPrice - Times(p.entryPrice, re + rx + s)
  {
    RatesNonNegative(cfg);
  }

  lemma ShortNet(n: real, entry: real, stop: real, fill: real, re: real, rx: real, s: real)
    requires n > 0.0 && entry > 0.0 && stop > 0.0 && re >= 0.0 && rx >= 0.0 && s >= 0.0
    requires stop <= entry - Times(entry, re + rx + s) && fill == Times(stop, 1.0 + s)
    ensures Times(n, Times(entry, 1.0 - re) - Times(fill, 1.0 + rx)) >= 0.0
  {
    ShortUnitNet(entry, stop, re, rx, s);
    assert Times(fill, 1.0 + rx) == Times(stop, (1.0 + s) * (1.0 + rx));
    TimesOrder(n, 0.0, Times(entry, 1.0 - re) - Times(fill, 1.0 + rx));
  }

  lemma LongNet(n: real, entry: real, stop: real, fill: real, re: real, rx: real, s: real)
    requires n > 0.0 && entry > 0.0 && re >= 0.0 && 0.0 <= rx <= 1.0 && 0.0 <= s <= 1.0
    requires stop >= entry + Times(entry, re + rx + s) && fill == Times(stop, 1.0 - s)
    ensures Times(n, Times(fill, 1.0 - rx) - Times(entry, 1.0 + re)) >= -Times(Times(n, entry),
                                                                               (re + rx + s) * (s + rx))
  {
    LongUnitNet(entry, stop, re, rx, s);
    assert Times(fill, 1.0 - rx) == Times(stop, (1.0 - s) * (1.0 - rx));
    LongBound(n, entry, Times(fill, 1.0 - rx), re, (re + rx + s) * (s + rx));
  }

  lemma StopFillPositive(cfg: BrokerConfig, p: Position)
    requires CoveredPosition(cfg, p) && (p.direction.Long? ==> cfg.StopSlippage() <= 100.0)
    ensures StopFill(cfg, p) >= 0.0 && Size(p) > 0.0
    ensures p.Notional() == Times(Size(p), p.entryPrice)
  {
    RatesNonNegative(cfg);
    StopFillForm(cfg, p);
    SizeForm(p, p.entryPrice);
    var s := cfg.StopSlippage() / 100.0;
    TimesOrder(p.stopLoss.value, 0.0, if p.direction.Long? then 1.0 - s else 1.0 + s);
    assert p.Notional() == p.MarginNotional(p.entryPrice);
  }

  /** A short stopped out at a cost-covering stop never loses. */
  lemma CoveredShort(cfg: BrokerConfig, p: Position)
    requires CoveredPosition(cfg, p) && p.direction.Short?
    ensures NetAt(cfg, p, StopFill(cfg, p)) >= 0.0
  {
    var re, rx, s := EntryRate(p), cfg.EffectiveRate(cfg.exitFeeType), cfg.StopSlippage() / 100.0;
    CoveredLevel(cfg, p);
    StopFillPositive(cfg, p);
    StopFillForm(cfg, p);
    NetForm(cfg, p, StopFill(cfg, p));
    ShortNet(Size(p), p.entryPrice, p.stopLoss.value, StopFill(cfg, p), re, rx, s);
  }

  /** The stop slippage leaves a price, and the exit fee leaves something of it. */
  predicate ModestCosts(cfg: BrokerConfig)
  {
    cfg.StopSlippage() <= 100.0 && (cfg.EffectiveRate(cfg.exitFeeType) <= 1.0 || cfg.StopSlippage() == 100.0)
  }

  function StopRate(cfg: BrokerConfig): real { cfg.StopSlippage() / 100.0 }

  /** What a long may lose: the second-order part of the three cost rates. */
  function SecondOrder(re: real, rx: real, s: real): real { (re + rx + s) * (s + rx) }

  /** A long's net result is no worse than the second-order part of its costs. */
  ghost predicate LongBounded(cfg: BrokerConfig, p: Position, net: real)
  {
    net >= -Times(p.Notional(), SecondOrder(EntryRate(p), cfg.EffectiveRate(cfg.exitFeeType), StopRate(cfg)))
  }

  /** What a long's units come to at these cost rates. */
  ghost predicate LongUnits(n: real, entry: real, stop: real, re: real, rx: real, s: real, net: real, notional: real)
  {
    && n > 0.0 && entry > 0.0 && re >= 0.0 && rx >= 0.0 && 0.0 <= s <= 1.0 && notional == Times(n, entry)
    && stop >= entry + Times(entry, re + rx + s)
    && net == Times(n, Times(Times(stop, 1.0 - s), 1.0 - rx) - Times(entry, 1.0 + re))
  }

  lemma LongNetForm(cfg: BrokerConfig, p: Position)
    requires CoveredPosition(cfg, p) && p.direction.Long? && cfg.StopSlippage() <= 100.0
    ensures LongUnits(Size(p), p.entryPrice, p.stopLoss.value, EntryRate(p), cfg.EffectiveRate(cfg.exitFeeType),
                      StopRate(cfg),
                      NetAt(cfg, p, StopFill(cfg, p)), p.Notional())
  {
    CoveredLevel(cfg, p);
    StopFillPositive(cfg, p);
    StopFillForm(cfg, p);
    NetForm(cfg, p, StopFill(cfg, p));
  }

  lemma LongNetNothing(n: real, entry: real, re: real, rx: real)
    requires n > 0.0 && entry > 0.0 && re >= 0.0 && rx >= 0.0
    ensures Times(n, -Times(entry, 1.0 + re)) >= -Times(Times(n, entry), (re + rx + 1.0) * (1.0 + rx))
  {
    TimesOrder(1.0 + re + rx, 1.0, 1.0 + rx);
    TimesOrder(entry, 1.0 + re, (re + rx + 1.0) * (1.0 + rx));
    TimesOrder(n, Times(entry, 1.0 + re), Times(entry, (re + rx + 1.0) * (1.0 + rx)));
    assert Times(n, Times(entry, (re + rx + 1.0) * (1.0 + rx))) == Times(Times(n, entry), (re + rx + 1.0) * (1.0 + rx));
  }

  lemma LongNetUnits(n: real, entry: real, stop: real, re: real, rx: real, s: real, net: real, notional: real)
    requires LongUnits(n, entry, stop, re, rx, s, net, notional) && (rx <= 1.0 || s == 1.0)
    ensures net >= -Times(notional, SecondOrder(re, rx, s))
  {
    if s == 1.0 {
      assert Times(stop, 0.0) == 0.0 && Times(0.0, 1.0 - rx) == 0.0;
      LongNetNothing(n, entry, re, rx);
    } else {
      LongNet(n, entry, stop, Times(stop, 1.0 - s), re, rx, s);
    }
  }

  /** A long loses at most the second-order part of its costs. */
  lemma CoveredLong(cfg: BrokerConfig, p: Position)
    requires CoveredPosition(cfg, p) && p.direction.Long? && ModestCosts(cfg)
    ensures LongBounded(cfg, p, NetAt(cfg, p, StopFill(cfg, p)))
  {
    LongNetForm(cfg, p);
    LongNetUnits(Size(p), p.entryPrice, p.stopLoss.value, EntryRate(p), cfg.EffectiveRate(cfg.exitFeeType),
                 StopRate(cfg),
                 NetAt(cfg, p, StopFill(cfg, p)), p.Notional());
  }

  lemma TimesMinus(n: real, x: real, y: real)
    ensures Times(n, -Times(x, y)) == -Times(Times(n, x), y)
  {
  }

  lemma FeeTakes(stop: real, rx: real, s: real)
    ensures Times(Times(stop, 1.0 - s), 1.0 - rx) == -Times(stop, (1.0 - s) * (rx - 1.0))
  {
  }

  /** An exit fee above the price outgrows any bound as the stop moves up. */
  lemma FeeBreaks(n: real, entry: real, stop: real, re: real, rx: real, s: real, net: real, notional: real)
    requires LongUnits(n, entry, stop, re, rx, s, net, notional)
    requires Times(stop, (1.0 - s) * (rx - 1.0)) >= Times(entry, SecondOrder(re, rx, s))
    ensures net < -Times(notional, SecondOrder(re, rx, s))
  {
    FeeTakes(stop, rx, s);
    Positive(entry, 1.0 + re);
    Below(n, Times(Times(stop, 1.0 - s), 1.0 - rx) - Times(entry, 1.0 + re), -Times(entry, SecondOrder(re, rx, s)));
    TimesMinus(n, entry, SecondOrder(re, rx, s));
  }

  lemma HigherStop(from: real, entry: real, re: real, rx: real, s: real) returns (stop: real)
    requires from > 0.0 && entry > 0.0 && re >= 0.0 && rx > 1.0 && 0.0 <= s < 1.0
    ensures stop >= from && Times(stop, (1.0 - s) * (rx - 1.0)) >= Times(entry, SecondOrder(re, rx, s))
  {
    Positive(1.0 - s, rx - 1.0);
    Positive(re + rx + s, s + rx);
    Positive(entry, SecondOrder(re, rx, s));
    stop := StopFor(from, (1.0 - s) * (rx - 1.0), Times(entry, SecondOrder(re, rx, s)));
  }

  lemma StopFor(from: real, k: real, bound: real) returns (stop: real)
    requires from > 0.0 && k > 0.0 && bound >= 0.0
    ensures stop >= from && Times(stop, k) >= bound
  {
    stop := from + bound / k;
    assert (bound / k) * k == bound;
    Positive(from, k);
    assert Times(stop, k) == Times(from, k) + (bound / k) * k;
  }

  lemma Positive(x: real, y: real)
    requires x > 0.0 && y > 0.0
    ensures x * y > 0.0 && Times(x, y) > 0.0
  {
  }

  lemma Below(n: real, x: real, y: real)
    requires n > 0.0 && x < y
    ensures Times(n, x) < Times(n, y)
  {
    Positive(n, y - x);
    assert Times(n, y) == Times(n, x) + Times(n, y - x);
  }

  lemma FeeBreaksLong(cfg: BrokerConfig, p: Position) returns (q: Position)
    requires CoveredPosition(cfg, p) && p.direction.Long? && cfg.EffectiveRate(cfg.exitFeeType) > 1.0
      && cfg.StopSlippage() < 100.0
    ensures CoveredPosition(cfg, q) && q == p.(stopLoss := q.stopLoss) && q.stopLoss.value >= p.stopLoss.value
    ensures !LongBounded(cfg, q, NetAt(cfg, q, StopFill(cfg, q)))
  {
    LongNetForm(cfg, p);
    var re, rx, s := EntryRate(p), cfg.EffectiveRate(cfg.exitFeeType), StopRate(cfg);
    var stop := HigherStop(p.stopLoss.value, p.entryPrice, re, rx, s);
    HigherStopCovers(cfg, p, stop);
    q := p.(stopLoss := Some(stop));
    LongNetForm(cfg, q);
    FeeBreaks(Size(q), q.entryPrice, stop, re, rx, s, NetAt(cfg, q, StopFill(cfg, q)), q.Notional());
  }

  /** With a slippage above the price the fill price is negative, and a long nets at most its price move. */
  lemma NegativeFill(cfg: BrokerConfig, p: Position)
    requires CoveredPosition(cfg, p) && p.direction.Long?
    ensures NetAt(cfg, p, StopFill(cfg, p)) <= Times(Size(p),
                                                     Times(p.stopLoss.value, 1.0 - StopRate(cfg)) - p.entryPrice)
    ensures Size(p) > 0.0 && p.Notional() == Times(Size(p), p.entryPrice)
  {
    StopFillForm(cfg, p);
    SizeForm(p, p.entryPrice);
    FeeNonNegative(cfg, p.MarginNotional(StopFill(cfg, p)), cfg.exitFeeType);
    TimesOrder(p.Notional(), 0.0, EntryRate(p));
    GrossForm(p, StopFill(cfg, p));
  }

  lemma GrossForm(p: Position, price: real)
    requires p.direction.Long?
    ensures p.UnrealizedPnl(price) == Times(Size(p), price - p.entryPrice)
    ensures p.Notional() == p.MarginNotional(p.entryPrice)
  {
  }

  lemma SlippageBreaks(n: real, entry: real, stop: real, s: real, more: real, net: real, notional: real)
    requires n > 0.0 && entry > 0.0 && notional == Times(n, entry) && Times(stop, s - 1.0) >= Times(entry, more)
    requires net <= Times(n, Times(stop, 1.0 - s) - entry)
    ensures net < -Times(notional, more)
  {
    assert Times(stop, 1.0 - s) == -Times(stop, s - 1.0);
    Below(n, Times(stop, 1.0 - s) - entry, -Times(entry, more));
    TimesMinus(n, entry, more);
  }

  lemma SlippageBreaksLong(cfg: BrokerConfig, p: Position) returns (q: Position)
    requires CoveredPosition(cfg, p) && p.direction.Long? && cfg.StopSlippage() > 100.0
    ensures CoveredPosition(cfg, q) && q == p.(stopLoss := q.stopLoss) && q.stopLoss.value >= p.stopLoss.value
    ensures !LongBounded(cfg, q, NetAt(cfg, q, StopFill(cfg, q)))
  {
    var more := SecondOrder(EntryRate(p), cfg.EffectiveRate(cfg.exitFeeType), StopRate(cfg));
    MoreNonNegative(cfg, p);
    var stop := StopFor(p.stopLoss.value, StopRate(cfg) - 1.0, Times(p.entryPrice, more));
    HigherStopCovers(cfg, p, stop);
    q := p.(stopLoss := Some(stop));
    NegativeFill(cfg, q);
    SlippageBreaks(Size(q), q.entryPrice, stop, StopRate(cfg), more, NetAt(cfg, q, StopFill(cfg, q)), q.Notional());
  }

  lemma MoreNonNegative(cfg: BrokerConfig, p: Position)
    requires CoveredPosition(cfg, p)
    ensures Times(p.entryPrice, SecondOrder(EntryRate(p), cfg.EffectiveRate(cfg.exitFeeType), StopRate(cfg))) >= 0.0
  {
    CoveredLevel(cfg, p);
    var re, rx, s := EntryRate(p), cfg.EffectiveRate(cfg.exitFeeType), StopRate(cfg);
    SecondOrderNonNegative(re, rx, s);
    TimesOrder(p.entryPrice, 0.0, SecondOrder(re, rx, s));
  }

  lemma SecondOrderNonNegative(re: real, rx: real, s: real)
    requires re >= 0.0 && rx >= 0.0 && s >= 0.0
    ensures SecondOrder(re, rx, s) >= 0.0
  {
  }

  /** A long's higher stop covers the costs as well. */
  lemma HigherStopCovers(cfg: BrokerConfig, p: Position, stop: real)
    requires CoveredPosition(cfg, p) && p.direction.Long? && stop >= p.stopLoss.value
    ensures CoveredPosition(cfg, p.(stopLoss := Some(stop)))
    ensures EntryRate(p.(stopLoss := Some(stop))) == EntryRate(p)
  {
  }

  /** The bound needs modest costs: without them some higher stop, covering its costs all the more, nets less. */
  lemma CoveredLongBreaks(cfg: BrokerConfig, p: Position) returns (q: Position)
    requires CoveredPosition(cfg, p) && p.direction.Long? && !ModestCosts(cfg)
    ensures CoveredPosition(cfg, q) && q == p.(stopLoss := q.stopLoss) && q.stopLoss.value >= p.stopLoss.value
    ensures !LongBounded(cfg, q, NetAt(cfg, q, StopFill(cfg, q)))
  {
    if cfg.StopSlippage() > 100.0 {
      q := SlippageBreaksLong(cfg, p);
    } else {
      q := FeeBreaksLong(cfg, p);
    }
  }

  /** What a covered stop-out nets, both ways round. */
  ghost predicate CoveredNet(cfg: BrokerConfig, p: Position, net: real)
  {
    if p.direction.Short? then net >= 0.0 else ModestCosts(cfg) ==> LongBounded(cfg, p, net)
  }

  lemma LongBound(n: real, entry: real, received: real, re: real, x: real)
    requires n > 0.0 && received >= Times(entry, 1.0 + re - x)
    ensures Times(n, received - Times(entry, 1.0 + re)) >= -Times(Times(n, entry), x)
  {
    assert Times(entry, 1.0 + re - x) == Times(entry, 1.0 + re) - Times(entry, x);
    TimesOrder(n, -Times(entry, x), received - Times(entry, 1.0 + re));
    assert Times(n, -Times(entry, x)) == -Times(Times(n, entry), x);
  }
}
