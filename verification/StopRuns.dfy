/** Stops over whole runs of the broker. */
module StopRuns {
  import opened Common
  import opened Market
  import opened Ledger
  import opened LedgerMoves
  import opened LedgerRuns
  import opened StopTheorems
  import ExitTriggers
  import OrderBook
  import StopManagement
  import TrailPolicies

  /** In this state the call neither makes the broker enter on the pair nor shows a non-positive close. */
  ghost predicate Manages(cfg: BrokerConfig, a: Account, pair: string, e: Event)
    requires Filed(cfg, a)
  {
    match e
    case Decided(d, market, ts) =>
      d.signal.pair == pair && d.signal.action.IsEntry() ==> !Execute(cfg, a, d, market, ts).1.accepted
    case ExitsManaged(c, _, _, _) => c.close > 0.0
    case _ => true
  }

  /** Every call of the run does so, in the state it is made in; refused entries are allowed. */
  ghost predicate ManagesAll(cfg: BrokerConfig, start: Account, events: seq<Event>, pair: string)
    requires cfg.Valid() && Filed(cfg, start)
  {
    events != [] ==>
      var init := events[..|events| - 1];
      ManagesAll(cfg, start, init, pair) && Manages(cfg, RunFrom(cfg, start, init), pair, events[|events| - 1])
  }

  /** A position opened at a positive price with a non-negative entry rate and a usable stop. */
  ghost predicate Sound(p: Position)
  {
    p.entryPrice > 0.0 && DecMeta(p.metadata, ENTRY_EFFECTIVE_FEE_RATE, 0.0) >= 0.0 && p.stopLoss != Some(0.0)
  }

  /** What managing a position may do to it while it stays open. */
  ghost predicate Managed(cfg: BrokerConfig, p: Position, q: Position)
  {
    && q.direction == p.direction && q.entryPrice == p.entryPrice && q.rate == p.rate && q.unit == p.unit
    && Get(q.metadata, ENTRY_EFFECTIVE_FEE_RATE) == Get(p.metadata, ENTRY_EFFECTIVE_FEE_RATE)
    && NoLooser(p.direction, p.stopLoss, q.stopLoss) && Sound(q)
    && (FeesMatch(cfg, p) ==> FeesMatch(cfg, q))
  }

  lemma ManagedTrans(cfg: BrokerConfig, p: Position, q: Position, r: Position)
    requires Managed(cfg, p, q) && Managed(cfg, q, r)
    ensures Managed(cfg, p, r)
  {
  }

  lemma HoldingKeepsFeesMatch(cfg: BrokerConfig, p: Position, q: Position)
    requires SameHolding(p, q)
    ensures FeesMatch(cfg, p) ==> FeesMatch(cfg, q)
    ensures Get(q.metadata, ENTRY_EFFECTIVE_FEE_RATE) == Get(p.metadata, ENTRY_EFFECTIVE_FEE_RATE)
  {
    SameFees(p, q);
  }

  lemma TrailManaged(cfg: BrokerConfig, p: Position, c: Candle)
    requires Sound(p)
    ensures Managed(cfg, p, StopManagement.UpdateTrailingStop(cfg, p, c))
  {
    PctTrailTightens(cfg, p, c);
    TrailingKeepsHolding(cfg, p, c);
    HoldingKeepsFeesMatch(cfg, p, StopManagement.UpdateTrailingStop(cfg, p, c));
  }

  lemma ManageManaged(cfg: BrokerConfig, p: Position, c: Candle, atr: Option<real>,
                      settings: StopManagement.ExitSettings, band: Option<TrailPolicies.Band>)
    requires cfg.Valid() && Sound(p) && c.close > 0.0
    requires StopManagement.UpdateDynamicExits(cfg, p, c, atr, settings, band).Ok?
    ensures Managed(cfg, p, StopManagement.UpdateDynamicExits(cfg, p, c, atr, settings, band).value)
  {
    if !StopManagement.Skips(p, c, atr, settings) {
      ManageTightens(cfg, p, c, atr.value, settings, band);
      LedgerMoves.ManagingKeepsHolding(cfg, p, c, atr, settings, band);
      HoldingKeepsFeesMatch(cfg, p, StopManagement.UpdateDynamicExits(cfg, p, c, atr, settings, band).value);
    }
  }

  lemma KeptFeesMatch(cfg: BrokerConfig, p: Position, share: real, ts: int)
    requires p.quantity > 0.0 && p.rate > 0.0 && p.unit > 0.0 && p.entryPrice > 0.0 && p.EntryFees() >= 0.0
    requires 0.0 < share < 1.0 && FeesMatch(cfg, p)
    ensures FeesMatch(cfg, KeptShare(p, share, ts))
  {
    var q, re := KeptShare(p, share, ts), Decimal(p.metadata, ENTRY_EFFECTIVE_FEE_RATE).value;
    ShareFees(p, share, ts);
    assert Get(q.metadata, ENTRY_EFFECTIVE_FEE_RATE) == Get(p.metadata, ENTRY_EFFECTIVE_FEE_RATE);
    assert Get(ClosedShare(p, share).metadata, ENTRY_FEES_TOTAL) == Num(p.EntryFees() * share);
    KeptNotional(p, q, share);
    assert q.EntryFees() == Times(p.EntryFees(), 1.0 - share);
    assert Times(Times(p.Notional(), re), 1.0 - share) == Times(Times(p.Notional(), 1.0 - share), re);
  }

  lemma KeptNotional(p: Position, q: Position, share: real)
    requires p.quantity > 0.0 && p.rate > 0.0 && p.unit > 0.0 && p.entryPrice > 0.0 && 0.0 < share < 1.0
    requires q == p.(quantity := p.quantity - p.quantity * share, updatedAt := q.updatedAt, metadata := q.metadata)
    ensures q.Notional() == Times(p.Notional(), 1.0 - share)
  {
    var n := Times(p.quantity * p.entryPrice * p.unit, p.rate);
    assert p.quantity * p.entryPrice > 0.0;
    assert p.quantity * p.entryPrice * p.unit > 0.0;
    assert n > 0.0 && p.Notional() == n;
    assert q.quantity * q.entryPrice * q.unit * q.rate == Times(n, 1.0 - share);
    TimesOrder(n, 0.0, 1.0 - share);
  }

  lemma KeptManaged(cfg: BrokerConfig, p: Position, share: real, ts: int)
    requires Sound(p) && p.quantity > 0.0 && p.rate > 0.0 && p.unit > 0.0 && p.EntryFees() >= 0.0 && 0.0 < share < 1.0
    ensures Managed(cfg, p, KeptShare(p, share, ts))
  {
    assert Get(KeptShare(p, share, ts).metadata, ENTRY_EFFECTIVE_FEE_RATE) == Get(p.metadata, ENTRY_EFFECTIVE_FEE_RATE);
    if FeesMatch(cfg, p) { KeptFeesMatch(cfg, p, share, ts); }
  }

  lemma PartialPositions(cfg: BrokerConfig, a: Account, s: Signal, market: Option<real>, ts: int, d: Option<Decision>,
                         reason: Reason)
    requires Filed(cfg, a)
    ensures PartialClose(cfg, a, s, market, ts, d, reason).0.positions ==
      if PartialRefused(a, s, market, ShareOf(a, s)) then a.positions
      else a.positions[s.pair := KeptShare(a.positions[s.pair], ShareOf(a, s), ts)]
  {
  }

  /** A partial close keeps the rest of the position managed. */
  lemma PartialCloseManaged(cfg: BrokerConfig, a: Account, s: Signal, market: Option<real>, ts: int,
                            d: Option<Decision>, reason: Reason, pair: string)
    requires cfg.Valid() && Filed(cfg, a) && pair in a.positions && Sound(a.positions[pair])
    ensures var b := PartialClose(cfg, a, s, market, ts, d, reason).0;
      pair in b.positions && Managed(cfg, a.positions[pair], b.positions[pair])
  {
    PartialPositions(cfg, a, s, market, ts, d, reason);
    PartialMapManaged(cfg, a, s, market, ts, pair);
  }

  lemma PartialMapManaged(cfg: BrokerConfig, a: Account, s: Signal, market: Option<real>, ts: int, pair: string)
    requires cfg.Valid() && Filed(cfg, a) && pair in a.positions && Sound(a.positions[pair])
    ensures var share := ShareOf(a, s);
      (!PartialRefused(a, s, market, share) && s.pair == pair)
      ==> Managed(cfg, a.positions[pair], KeptShare(a.positions[pair], share, ts))
    ensures Managed(cfg, a.positions[pair], a.positions[pair])
  {
    if s.pair == pair && !PartialRefused(a, s, market, ShareOf(a, s)) {
      KeptManaged(cfg, a.positions[pair], ShareOf(a, s), ts);
    }
  }

  lemma CloseManaged(cfg: BrokerConfig, a: Account, s: Signal, market: Option<real>, ts: int, d: Option<Decision>,
                     reason: Reason, pair: string)
    requires Filed(cfg, a) && pair in a.positions && Sound(a.positions[pair])
    ensures var b := Close(cfg, a, s, market, ts, d, reason).0;
      pair in b.positions ==> b.positions[pair] == a.positions[pair]
  {
  }

  lemma TriggerExitManaged(cfg: BrokerConfig, b: Account, p: Position, c: Candle, t: ExitTriggers.Trigger, pair: string)
    requires cfg.Valid() && Filed(cfg, b) && pair in b.positions && Sound(b.positions[pair])
    ensures var r := TriggerExit(cfg, b, p, c, t).0;
      pair in r.positions ==> Managed(cfg, b.positions[pair], r.positions[pair])
  {
    var s := TriggerSignal(p, t);
    if t.partialPct.Some? {
      PartialCloseManaged(cfg, b, s, Some(t.price), c.closeTime, None, t.reason, pair);
    } else {
      CloseManaged(cfg, b, s, Some(t.price), c.closeTime, None, t.reason, pair);
    }
  }

  lemma UntriggeredManaged(cfg: BrokerConfig, b: Account, c: Candle, pair: string)
    requires cfg.Valid() && Filed(cfg, b) && pair in b.positions && Sound(b.positions[pair]) && c.pair in b.positions
    ensures var r := WithTrail(cfg, b, b.positions[c.pair], c);
      pair in r.positions && Managed(cfg, b.positions[pair], r.positions[pair])
  {
    if c.pair == pair { TrailManaged(cfg, b.positions[pair], c); }
  }

  lemma AfterResetManaged(cfg: BrokerConfig, b: Account, c: Candle, pair: string)
    requires cfg.Valid() && Filed(cfg, b) && pair in b.positions && Sound(b.positions[pair])
    ensures var r := AfterReset(cfg, b, c).0; pair in r.positions ==> Managed(cfg, b.positions[pair], r.positions[pair])
  {
    if c.pair in b.positions {
      var p := b.positions[c.pair];
      var t := ExitTriggers.TriggerFor(p, c);
      if t.Some? { TriggerExitManaged(cfg, b, p, c, t.value, pair); } else { UntriggeredManaged(cfg, b, c, pair); }
    }
  }

  lemma CandleManaged(cfg: BrokerConfig, a: Account, c: Candle, pair: string)
    requires cfg.Valid() && Filed(cfg, a) && pair in a.positions && Sound(a.positions[pair])
    ensures var b := OnCandle(cfg, a, c).0; pair in b.positions ==> Managed(cfg, a.positions[pair], b.positions[pair])
  {
    AfterResetManaged(cfg, ResetDay(a, Day(c.closeTime)), c, pair);
  }

  lemma DecisionManaged(cfg: BrokerConfig, a: Account, d: Decision, market: Option<real>, ts: int, pair: string)
    requires cfg.Valid() && Filed(cfg, a) && pair in a.positions && Sound(a.positions[pair])
    requires Manages(cfg, a, pair, Decided(d, market, ts))
    ensures var b := Execute(cfg, a, d, market, ts).0; pair in b.positions ==> b.positions[pair] == a.positions[pair]
  {
    var m := ExecuteMoves(cfg, a, d, market, ts);
  }

  lemma ExitsManagedStep(cfg: BrokerConfig, a: Account, c: Candle, atr: Option<real>,
                         settings: StopManagement.ExitSettings, band: Option<TrailPolicies.Band>, pair: string)
    requires cfg.Valid() && Filed(cfg, a) && pair in a.positions && Sound(a.positions[pair]) && c.close > 0.0
    ensures var b := Step(cfg, a, ExitsManaged(c, atr, settings, band));
      pair in b.positions && Managed(cfg, a.positions[pair], b.positions[pair])
  {
    if c.pair == pair && ManageExits(cfg, a, c, atr, settings, band).Ok? {
      ManageManaged(cfg, a.positions[pair], c, atr, settings, band);
    }
  }

  lemma StepManaged(cfg: BrokerConfig, a: Account, e: Event, pair: string)
    requires cfg.Valid() && Filed(cfg, a) && pair in a.positions && Sound(a.positions[pair]) && Manages(cfg, a, pair, e)
    ensures var b := Step(cfg, a, e); pair in b.positions ==> Managed(cfg, a.positions[pair], b.positions[pair])
  {
    match e
    case Decided(d, market, ts) => DecisionManaged(cfg, a, d, market, ts, pair);
    case CandleClosed(c) => CandleManaged(cfg, a, c, pair);
    case ExitsManaged(c, atr, settings, band) => ExitsManagedStep(cfg, a, c, atr, settings, band, pair);
    case _ =>
  }

  lemma StaysClosed(cfg: BrokerConfig, a: Account, e: Event, pair: string)
    requires cfg.Valid() && Filed(cfg, a) && pair !in a.positions && Manages(cfg, a, pair, e)
    ensures pair !in Step(cfg, a, e).positions
  {
    var m := StepMoves(cfg, a, e);
  }

  /**
   * Stops only tighten: between entries on a pair, over any run of candles, stop updates,
   * decisions and partial closes, the open position's stop is never loosened.
   */
  lemma {:induction false} StopsOnlyTighten(cfg: BrokerConfig, start: Account, events: seq<Event>, pair: string)
    requires cfg.Valid() && Filed(cfg, start) && pair in start.positions && Sound(start.positions[pair])
    requires ManagesAll(cfg, start, events, pair)
    ensures var a := RunFrom(cfg, start, events);
      pair in a.positions ==> Managed(cfg, start.positions[pair], a.positions[pair])
  {
    if events != [] {
      var init, e := events[..|events| - 1], events[|events| - 1];
      StopsOnlyTighten(cfg, start, init, pair);
      var b := RunFrom(cfg, start, init);
      if pair in b.positions {
        StepManaged(cfg, b, e, pair);
        if pair in Step(cfg, b, e).positions {
          ManagedTrans(cfg, start.positions[pair], b.positions[pair], Step(cfg, b, e).positions[pair]);
        }
      } else {
        StaysClosed(cfg, b, e, pair);
      }
    }
  }

  // ------------------------------------------------------------------ cost-covering stops

  /** A covered position stays covered while it is managed. */
  lemma ManagedKeepsCovered(cfg: BrokerConfig, p: Position, q: Position)
    requires CostCovered(cfg, p) && Managed(cfg, p, q)
    ensures CostCovered(cfg, q) && EntryRate(q) == EntryRate(p)
  {
    assert StopManagement.CostBuffer(cfg, q) == StopManagement.CostBuffer(cfg, p);
  }

  /** A position that was opened and never scaled carries the entry rate on its notional. */
  lemma OpenedFeesMatch(cfg: BrokerConfig, d: Decision, direction: Direction, quantity: real, price: real,
                        leverage: real, ts: int)
    requires cfg.Valid()
    ensures var feeType := FeeTypeOf(d.signal, cfg.entryFeeType);
      FeesMatch(cfg, OpenedPosition(cfg, d, direction, quantity, price, leverage,
                                    cfg.Fee(cfg.MarginNotional(quantity, price), feeType), ts))
  {
    var feeType := FeeTypeOf(d.signal, cfg.entryFeeType);
    var fee := cfg.Fee(cfg.MarginNotional(quantity, price), feeType);
    OpenedFees(cfg, d, direction, quantity, price, leverage, fee, ts);
    FeeIsEffectiveRate(cfg, cfg.MarginNotional(quantity, price), feeType);
    RatesNonNegative(cfg);
  }

  /** Cost basis times contract terms, when all are positive. */
  lemma NotionalForm(cfg: BrokerConfig, p: Position, basis: real)
    requires cfg.Valid() && p.rate == cfg.rate && p.unit == cfg.unit && p.quantity * p.entryPrice == basis
      && basis > 0.0
    ensures p.Notional() == Times(basis, p.unit * p.rate)
  {
    var k := p.unit * p.rate;
    assert k > 0.0;
    TimesStrict(basis, 0.0, k);
    assert p.quantity * p.entryPrice * p.unit * p.rate == Times(basis, k);
  }

  lemma MarginForm(cfg: BrokerConfig, quantity: real, price: real)
    requires cfg.Valid() && quantity > 0.0 && price > 0.0
    ensures cfg.MarginNotional(quantity, price) == Times(Times(quantity, price), cfg.unit * cfg.rate)
    ensures Times(quantity, price) > 0.0
  {
    var k := cfg.unit * cfg.rate;
    assert k > 0.0;
    TimesStrict(quantity, 0.0, price);
    TimesStrict(Times(quantity, price), 0.0, k);
    assert quantity * price * cfg.unit * cfg.rate == Times(Times(quantity, price), k);
  }

  /** The scale-in pays the rate the position already carries, and no metadata overwrites that rate. */
  ghost predicate SameRate(cfg: BrokerConfig, p: Position, d: Decision)
  {
    && Get(p.metadata + d.metadata + d.signal.metadata, ENTRY_EFFECTIVE_FEE_RATE)
       == Get(p.metadata, ENTRY_EFFECTIVE_FEE_RATE)
    && Decimal(p.metadata, ENTRY_EFFECTIVE_FEE_RATE) == Some(cfg.EffectiveRate(FeeTypeOf(d.signal, cfg.entryFeeType)))
  }

  /** Scaling in at the rate the position carries keeps the rate on the whole notional. */
  lemma ScaledFeesMatch(cfg: BrokerConfig, p: Position, d: Decision, quantity: real, price: real, leverage: real,
                        ts: int)
    requires cfg.Valid() && p.rate == cfg.rate && p.unit == cfg.unit && p.quantity > 0.0 && quantity > 0.0
    requires p.entryPrice > 0.0 && price > 0.0 && FeesMatch(cfg, p) && SameRate(cfg, p, d)
    ensures var fee := cfg.Fee(cfg.MarginNotional(quantity, price), FeeTypeOf(d.signal, cfg.entryFeeType));
      var q := ScaledPosition(p, d, quantity, price, leverage, fee, ts);
      FeesMatch(cfg, q) && q.entryPrice > 0.0
      && Get(q.metadata, ENTRY_EFFECTIVE_FEE_RATE) == Get(p.metadata, ENTRY_EFFECTIVE_FEE_RATE)
  {
    var feeType, k := FeeTypeOf(d.signal, cfg.entryFeeType), cfg.unit * cfg.rate;
    var re := cfg.EffectiveRate(feeType);
    var fee := cfg.Fee(cfg.MarginNotional(quantity, price), feeType);
    var q := ScaledPosition(p, d, quantity, price, leverage, fee, ts);
    ScaledFees(p, d, quantity, price, leverage, fee, ts);
    FeeIsEffectiveRate(cfg, cfg.MarginNotional(quantity, price), feeType);
    MarginForm(cfg, quantity, price);
    MarginForm(cfg, p.quantity, p.entryPrice);
    var basis, more := Times(p.quantity, p.entryPrice), Times(quantity, price);
    NotionalForm(cfg, p, basis);
    NotionalForm(cfg, q, basis + more);
    TimesSum(basis, more, k);
    TimesSum(Times(basis, k), Times(more, k), re);
    PositiveFactor(q.quantity, q.entryPrice);
  }

  lemma PositiveFactor(x: real, y: real)
    requires x > 0.0 && x * y > 0.0
    ensures y > 0.0
  {
    if y <= 0.0 { TimesOrder(x, y, 0.0); }
  }

  /** A position the cost theorem can be applied to once its stop covers the costs. */
  ghost predicate Costed(cfg: BrokerConfig, p: Position) { Sound(p) && FeesMatch(cfg, p) }

  /** A decision whose entry, if accepted, leaves a costed position: a first entry, or a scale-in at the same rate. */
  ghost predicate CostedEntry(cfg: BrokerConfig, a: Account, d: Decision)
  {
    && d.signal.action.IsEntry() && d.signal.stopLoss != Some(0.0)
    && (d.signal.pair in a.positions ==>
          Costed(cfg, a.positions[d.signal.pair]) && SameRate(cfg, a.positions[d.signal.pair], d))
  }

  lemma EnterAtCosted(cfg: BrokerConfig, a: Account, d: Decision, direction: Direction, existing: Option<Position>,
                      quantity: real, price: real, leverage: real, ts: int)
    requires cfg.Valid() && Filed(cfg, a) && CostedEntry(cfg, a, d) && quantity > 0.0 && price > 0.0
    requires existing == (if d.signal.pair in a.positions then Some(a.positions[d.signal.pair]) else None)
    ensures Costed(cfg, EnterAt(cfg, a, d, direction, existing, quantity, price, leverage, ts).1.position.value)
  {
    RatesNonNegative(cfg);
    if existing.Some? {
      ScaledFeesMatch(cfg, existing.value, d, quantity, price, leverage, ts);
    } else {
      OpenedFeesMatch(cfg, d, direction, quantity, price, leverage, ts);
      var fee := cfg.Fee(cfg.MarginNotional(quantity, price), FeeTypeOf(d.signal, cfg.entryFeeType));
      OpenedFees(cfg, d, direction, quantity, price, leverage, fee, ts);
    }
  }

  lemma AcceptedIsEnterAt(cfg: BrokerConfig, a: Account, d: Decision, market: Option<real>, ts: int)
    requires Filed(cfg, a) && d.signal.action.IsEntry() && Execute(cfg, a, d, market, ts).1.accepted
    ensures var s, base := d.signal, OrElse(market, d.signal.entryPrice);
      && s.direction.Some? && base.Some? && d.positionSize.Some? && d.positionSize.value > 0.0
      && var existing := if s.pair in a.positions then Some(a.positions[s.pair]) else None;
      Execute(cfg, a, d, market, ts)
        == EnterAt(cfg, WithMark(a, s.pair, base), d, s.direction.value, existing, d.positionSize.value,
                   EntryPrice(cfg, a, d, base.value), EntryLeverage(d, existing), ts)
  {
  }

  lemma EnterAtFiles(cfg: BrokerConfig, a: Account, d: Decision, direction: Direction, existing: Option<Position>,
                     quantity: real, price: real, leverage: real, ts: int)
    requires quantity > 0.0 && (existing.Some? ==> existing.value.quantity > 0.0)
    ensures var r := EnterAt(cfg, a, d, direction, existing, quantity, price, leverage, ts);
      && r.1.fill.Some? && r.1.fill.value.price == price && r.1.position.Some?
      && d.signal.pair in r.0.positions && r.0.positions[d.signal.pair] == r.1.position.value
  {
  }

  /** An accepted entry at a positive fill price leaves a costed position. */
  lemma EntryCosted(cfg: BrokerConfig, a: Account, d: Decision, market: Option<real>, ts: int)
    requires cfg.Valid() && Filed(cfg, a) && CostedEntry(cfg, a, d)
    requires var r := Execute(cfg, a, d, market, ts).1; r.accepted && r.fill.Some? && r.fill.value.price > 0.0
    ensures var b := Execute(cfg, a, d, market, ts).0;
      Filed(cfg, b) && d.signal.pair in b.positions && Costed(cfg, b.positions[d.signal.pair])
  {
    AcceptedIsEnterAt(cfg, a, d, market, ts);
    var s, base := d.signal, OrElse(market, d.signal.entryPrice);
    var existing := if s.pair in a.positions then Some(a.positions[s.pair]) else None;
    var price, leverage := EntryPrice(cfg, a, d, base.value), EntryLeverage(d, existing);
    EnterAtFiles(cfg, WithMark(a, s.pair, base), d, s.direction.value, existing, d.positionSize.value, price, leverage,
                 ts);
    EnterAtCosted(cfg, WithMark(a, s.pair, base), d, s.direction.value, existing, d.positionSize.value, price,
                  leverage, ts);
    DecisionFiled(cfg, a, d, market, ts);
  }

  lemma DecisionFiled(cfg: BrokerConfig, a: Account, d: Decision, market: Option<real>, ts: int)
    requires cfg.Valid() && Filed(cfg, a)
    ensures Filed(cfg, Execute(cfg, a, d, market, ts).0)
  {
    var m := ExecuteMoves(cfg, a, d, market, ts);
    MoveKeepsFiled(cfg, a, Execute(cfg, a, d, market, ts).0, m);
  }

  /** The candle stops the position out inside its range (no gap), and no order book is in play. */
  ghost predicate StopsOut(a: Account, c: Candle)
  {
    && c.pair in a.positions && c.pair !in a.books
    && var p := a.positions[c.pair]; var t := ExitTriggers.TriggerFor(p, c);
    && p.stopLoss.Some? && p.stopLoss.value > 0.0
    && t.Some? && (t.value.reason.StopHit? || t.value.reason.AmbiguousStop?)
  }

  /** The report closes the position for this net result: gross less exit fee less carried entry fees. */
  ghost predicate ClosesFor(r: Report, p: Position, net: real)
  {
    && r.accepted && r.fill.Some? && r.position == Some(p)
    && net == r.fill.value.realizedPnl - r.fill.value.fee - p.EntryFees()
  }

  lemma CloseNet(cfg: BrokerConfig, a: Account, s: Signal, price: real, ts: int, reason: Reason)
    requires s.pair in a.positions && a.positions[s.pair].pair == s.pair && s.pair !in a.books
    requires ExitMatches(s.action, a.positions[s.pair].direction) && s.feeType.None? && IsStopExit(s) && price > 0.0
    ensures var p, r := a.positions[s.pair], Close(cfg, a, s, Some(price), ts, None, reason);
      && ClosesFor(r.1, p, NetAt(cfg, p, OrderBook.ApplySlippage(price, ExitSide(p.direction), cfg.StopSlippage())))
      && r.0.positions == a.positions - {s.pair}
  {
    var p := a.positions[s.pair];
    assert ExitPrice(cfg, a, p, p.quantity, s, price)
        == OrderBook.ApplySlippage(price, ExitSide(p.direction), cfg.StopSlippage());
  }

  lemma StopSignal(p: Position, t: ExitTriggers.Trigger)
    requires t.kind.StopLoss? && t.partialPct.None?
    ensures var s := TriggerSignal(p, t);
      IsStopExit(s) && s.feeType.None? && s.pair == p.pair && s.action == t.action
  {
    assert Get(TriggerSignal(p, t).metadata, EXIT_TRIGGER_TYPE) == Plain("stop_loss");
  }

  lemma StopTrigger(p: Position, c: Candle)
    requires ExitTriggers.TriggerFor(p, c).Some?
    requires var t := ExitTriggers.TriggerFor(p, c).value; t.reason.StopHit? || t.reason.AmbiguousStop?
    ensures var t := ExitTriggers.TriggerFor(p, c).value;
      p.stopLoss == Some(t.price) && t.kind.StopLoss? && t.partialPct.None? && t.action == ExitAction(p.direction)
  {
    ExitTriggers.TimeStopAtClose(p, c);
    StopTriggerForm(p, c, ExitTriggers.ViewOf(p, c));
  }

  lemma TriggeredNet(cfg: BrokerConfig, b: Account, c: Candle, t: ExitTriggers.Trigger)
    requires Filed(cfg, b) && c.pair in b.positions && c.pair !in b.books
    requires var p := b.positions[c.pair];
      p.stopLoss == Some(t.price) && t.price > 0.0 && t.kind.StopLoss? && t.partialPct.None?
        && t.action == ExitAction(p.direction)
    ensures var p, r := b.positions[c.pair], TriggerExit(cfg, b, b.positions[c.pair], c, t);
      ClosesFor(r.1, p, NetAt(cfg, p, StopFill(cfg, p))) && r.0.positions == b.positions - {c.pair}
  {
    var p := b.positions[c.pair];
    StopSignal(p, t);
    CloseNet(cfg, b, TriggerSignal(p, t), t.price, c.closeTime, t.reason);
  }

  /** A stop-out is filled at the stop less slippage and nets what `NetAt` says. */
  lemma StopHitNet(cfg: BrokerConfig, a: Account, c: Candle)
    requires Filed(cfg, a) && StopsOut(a, c)
    ensures var p, r := a.positions[c.pair], OnCandle(cfg, a, c);
      r.1.Some? && ClosesFor(r.1.value, p, NetAt(cfg, p, StopFill(cfg, p))) && c.pair !in r.0.positions
  {
    var p := a.positions[c.pair];
    StopTrigger(p, c);
    TriggeredNet(cfg, ResetDay(a, Day(c.closeTime)), c, ExitTriggers.TriggerFor(p, c).value);
  }

  lemma StopTriggerForm(p: Position, c: Candle, v: ExitTriggers.View)
    requires v.timeStop.Some? ==> v.timeStop.value == ExitTriggers.Exit(p, c.close, Stagnation, ExitTriggers.TimeStop,
                                                                        c.close)
    requires ExitTriggers.Pick(p, c, v).Some?
    requires var t := ExitTriggers.Pick(p, c, v).value; t.reason.StopHit? || t.reason.AmbiguousStop?
    ensures var t := ExitTriggers.Pick(p, c, v).value;
      p.stopLoss == Some(t.price) && t.kind.StopLoss? && t.partialPct.None? && t.action == ExitAction(p.direction)
  {
  }

  lemma CoveredNow(cfg: BrokerConfig, p: Position)
    requires CoveredPosition(cfg, p)
    ensures CoveredNet(cfg, p, NetAt(cfg, p, StopFill(cfg, p)))
  {
    if p.direction.Short? {
      CoveredShort(cfg, p);
    } else if ModestCosts(cfg) {
      CoveredLong(cfg, p);
    }
  }

  lemma StaysCovered(cfg: BrokerConfig, start: Account, events: seq<Event>, pair: string)
    requires cfg.Valid() && Filed(cfg, start) && pair in start.positions
    requires var p := start.positions[pair]; Sound(p) && FeesMatch(cfg, p) && CostCovered(cfg, p)
    requires ManagesAll(cfg, start, events, pair)
    ensures var a := RunFrom(cfg, start, events);
      pair in a.positions ==>
        Sound(a.positions[pair]) && FeesMatch(cfg, a.positions[pair]) && CostCovered(cfg, a.positions[pair])
  {
    StopsOnlyTighten(cfg, start, events, pair);
    var a := RunFrom(cfg, start, events);
    if pair in a.positions { ManagedKeepsCovered(cfg, start.positions[pair], a.positions[pair]); }
  }

  /**
   * The cost-covering stop, end to end: from a state where a breakeven or profit-lock stop
   * covers the costs, over any run without an entry on the pair, a later stop-out inside
   * a candle nets at least zero for a short and only the second-order costs for a long.
   */
  lemma CoveredStopOut(cfg: BrokerConfig, start: Account, events: seq<Event>, c: Candle) returns (net: real)
    requires cfg.Valid() && Filed(cfg, start) && c.pair in start.positions
    requires var p := start.positions[c.pair]; Sound(p) && FeesMatch(cfg, p) && CostCovered(cfg, p)
    requires ManagesAll(cfg, start, events, c.pair)
    requires StopsOut(RunFrom(cfg, start, events), c)
    ensures var a := RunFrom(cfg, start, events);
      var p, r := a.positions[c.pair], OnCandle(cfg, a, c);
      r.1.Some? && ClosesFor(r.1.value, p, net) && c.pair !in r.0.positions && CoveredNet(cfg, p, net)
  {
    var a := RunFrom(cfg, start, events);
    StaysCovered(cfg, start, events, c.pair);
    StopHitNet(cfg, a, c);
    CoveredNow(cfg, a.positions[c.pair]);
    net := NetAt(cfg, a.positions[c.pair], StopFill(cfg, a.positions[c.pair]));
  }

  /** The account after one more call. */
  ghost function Next(cfg: BrokerConfig, a: Account, e: Event): (b: Account)
    requires cfg.Valid() && Filed(cfg, a)
    ensures Filed(cfg, b)
  {
    StepFiled(cfg, a, e);
    Step(cfg, a, e)
  }

  /** A stop update on the pair whose breakeven or profit-lock rule is in force. */
  ghost predicate Protecting(cfg: BrokerConfig, a: Account, e: Event, pair: string)
  {
    && e.ExitsManaged? && e.candle.pair == pair && e.candle.close > 0.0 && pair in a.positions
    && var p := a.positions[pair];
    && !StopManagement.Skips(p, e.candle, e.atr, e.settings)
    && StopManagement.UpdateDynamicExits(cfg, p, e.candle, e.atr, e.settings, e.band).Ok?
    && Protects(StopManagement.FrameOf(cfg, p, e.candle, e.atr.value, e.settings))
  }

  /** Such an update leaves a costed position with a stop that covers its costs. */
  lemma ProtectingCovers(cfg: BrokerConfig, a: Account, e: Event, pair: string)
    requires cfg.Valid() && Filed(cfg, a) && Protecting(cfg, a, e, pair) && Costed(cfg, a.positions[pair])
    ensures var b := Step(cfg, a, e);
      pair in b.positions && Costed(cfg, b.positions[pair]) && CostCovered(cfg, b.positions[pair])
  {
    var p := a.positions[pair];
    ProtectionCovers(cfg, p, e.candle, e.atr.value, e.settings, e.band);
    ExitsManagedStep(cfg, a, e.candle, e.atr, e.settings, e.band, pair);
  }

  /**
   * The cost-covering stop, end to end: from an accepted entry, over any run without a
   * further entry on the pair, a stop update in which breakeven or profit lock applies, and
   * any such run after it, a stop-out inside a candle nets at least zero for a short and
   * loses at most the second-order costs for a long.
   */
  lemma ProtectedStopOut(cfg: BrokerConfig, a: Account, d: Decision, market: Option<real>, ts: int,
                         before: seq<Event>, protect: Event, after: seq<Event>, c: Candle)
    returns (net: real)
    requires cfg.Valid() && Filed(cfg, a) && CostedEntry(cfg, a, d) && c.pair == d.signal.pair
    requires var r := Execute(cfg, a, d, market, ts).1; r.accepted && r.fill.Some? && r.fill.value.price > 0.0
    requires var entered := Next(cfg, a, Decided(d, market, ts));
      && ManagesAll(cfg, entered, before, c.pair)
      && var managed := RunFrom(cfg, entered, before);
      && Protecting(cfg, managed, protect, c.pair)
      && var protected := Next(cfg, managed, protect);
      && ManagesAll(cfg, protected, after, c.pair) && StopsOut(RunFrom(cfg, protected, after), c)
    ensures var last := RunFrom(cfg, Next(cfg, RunFrom(cfg, Next(cfg, a, Decided(d, market, ts)), before), protect),
                                after);
      var p, r := last.positions[c.pair], OnCandle(cfg, last, c);
      r.1.Some? && ClosesFor(r.1.value, p, net) && c.pair !in r.0.positions && CoveredNet(cfg, p, net)
  {
    EntryCosted(cfg, a, d, market, ts);
    var entered := Next(cfg, a, Decided(d, market, ts));
    StopsOnlyTighten(cfg, entered, before, c.pair);
    var managed := RunFrom(cfg, entered, before);
    ProtectingCovers(cfg, managed, protect, c.pair);
    net := CoveredStopOut(cfg, Next(cfg, managed, protect), after, c);
  }
}
