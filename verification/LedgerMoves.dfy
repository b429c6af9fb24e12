/** Every broker call is quiet, an entry or an exit; and what each of those does to the books. */
module LedgerMoves {
  import opened Common
  import opened Market
  import opened Ledger
  import OrderBook
  import ExitTriggers
  import StopManagement
  import StopTheorems
  import TrailPolicies

  /** Positions are filed under their own pair and hold a positive quantity at the broker's contract terms. */
  ghost predicate Filed(cfg: BrokerConfig, a: Account)
  {
    forall k :: k in a.positions ==>
      var p := a.positions[k];
      p.pair == k && p.quantity > 0.0 && p.rate == cfg.rate && p.unit == cfg.unit && p.EntryFees() >= 0.0
  }

  datatype Move =
    | Quiet
    | Manual // profit locked or unlocked by hand
    | Entry(order: Order, fill: Fill, after: Position)
    | Exit(order: Order, fill: Fill, closed: Position, kept: Option<Position>)

  /** The same holding: only stops, targets, time stamps and management metadata may differ. */
  ghost predicate SameHolding(p: Position, q: Position)
  {
    && q == p.(stopLoss := q.stopLoss, takeProfit := q.takeProfit, updatedAt := q.updatedAt, metadata := q.metadata)
    && StopTheorems.SameCosts(p.metadata, q.metadata)
  }

  lemma SameFees(p: Position, q: Position)
    requires SameHolding(p, q)
    ensures q.EntryFees() == p.EntryFees()
  {
    assert Get(q.metadata, ENTRY_FEES_TOTAL) == Get(p.metadata, ENTRY_FEES_TOTAL);
    assert Get(q.metadata, ENTRY_FEE) == Get(p.metadata, ENTRY_FEE);
  }

  ghost predicate SameHoldings(a: map<string, Position>, b: map<string, Position>)
  {
    a.Keys == b.Keys && forall k :: k in a ==> SameHolding(a[k], b[k])
  }

  /** Today's losses account for the whole move of the tradable base since the day's start. */
  ghost predicate DayBalanced(a: Account) { a.tradableBase + a.dailyLoss == a.dailyBaseStart }

  /** Nothing was filled. */
  ghost predicate Unfilled(a: Account, b: Account)
  {
    && SameHoldings(a.positions, b.positions) && a.marks.Keys <= b.marks.Keys
    && b.realizedPnl == a.realizedPnl && b.feesPaid == a.feesPaid && b.fills == a.fills && b.orders == a.orders
    && b.tradableBase + b.lockedProfit == a.tradableBase + a.lockedProfit
  }

  ghost predicate QuietMove(a: Account, b: Account)
  {
    Unfilled(a, b) && b.tradableBase == a.tradableBase && (DayBalanced(a) ==> DayBalanced(b))
  }

  /** The fill is written to the cash fields and lists. */
  ghost predicate Written(a: Account, b: Account, order: Order, f: Fill)
  {
    && order.pair == f.pair && order.side == f.side
    && b.realizedPnl == a.realizedPnl + f.realizedPnl && b.feesPaid == a.feesPaid + f.fee
    && b.fundingPaid == a.fundingPaid
    && b.orders == a.orders + [order] && b.fills == a.fills + [f]
    && f.pair in b.marks && a.marks.Keys <= b.marks.Keys && (DayBalanced(a) ==> DayBalanced(b))
    && f.fee >= 0.0 && f.quantity > 0.0
  }

  ghost predicate EntryMove(cfg: BrokerConfig, a: Account, b: Account, order: Order, f: Fill, after: Position)
  {
    && Written(a, b, order, f)
    && order.action.IsEntry() && f.side == EntrySide(order.action) && f.realizedPnl == 0.0
    && b.positions == a.positions[f.pair := after] && after.pair == f.pair
    && after.rate == cfg.rate && after.unit == cfg.unit
    && (b.tradableBase, b.lockedProfit) == (a.tradableBase, a.lockedProfit)
    && if f.pair in a.positions then
         var p := a.positions[f.pair];
         && after.direction == p.direction && after.quantity == p.quantity + f.quantity
         && after.quantity * after.entryPrice == p.quantity * p.entryPrice + f.quantity * f.price
         && after.EntryFees() == p.EntryFees() + f.fee
       else
         after.quantity == f.quantity && after.entryPrice == f.price && after.EntryFees() == f.fee
  }

  /** A position split into what is closed now and what is kept, entry fees included. */
  ghost predicate Splits(p: Position, closed: Position, kept: Option<Position>)
  {
    && closed == p.(quantity := closed.quantity, metadata := closed.metadata) && closed.quantity > 0.0
    && if kept.None? then closed == p
       else
         var q := kept.value;
         && q == p.(quantity := p.quantity - closed.quantity, updatedAt := q.updatedAt, metadata := q.metadata)
         && q.quantity > 0.0 && q.EntryFees() == p.EntryFees() - closed.EntryFees() && q.EntryFees() >= 0.0
  }

  ghost predicate ExitMove(cfg: BrokerConfig, a: Account, b: Account, order: Order, f: Fill, closed: Position,
                           kept: Option<Position>)
  {
    && Written(a, b, order, f) && f.pair in a.positions
    && var p := a.positions[f.pair];
    var net := f.realizedPnl - f.fee - closed.EntryFees();
    && order.action == ExitAction(p.direction) && f.side == ExitSide(p.direction)
    && Splits(p, closed, kept) && f.quantity == closed.quantity && f.realizedPnl == closed.UnrealizedPnl(f.price)
    && b.tradableBase == a.tradableBase - Loss(net) && b.lockedProfit == a.lockedProfit + Locked(cfg, net)
    && b.positions == (if kept.None? then a.positions - {f.pair} else a.positions[f.pair := kept.value])
  }

  ghost predicate Moves(cfg: BrokerConfig, a: Account, b: Account, m: Move)
  {
    match m
    case Quiet => QuietMove(a, b)
    case Manual => Unfilled(a, b) && b.positions == a.positions
    case Entry(order, f, after) => EntryMove(cfg, a, b, order, f, after)
    case Exit(order, f, closed, kept) => ExitMove(cfg, a, b, order, f, closed, kept)
  }

  /** What a report says about the call. */
  ghost predicate Reports(r: Report, m: Move)
  {
    match m
    case Quiet => !r.accepted && r.fill.None?
    case Manual => false
    case Entry(order, f, after) => r.accepted && r.order == Some(order) && r.fill == Some(f)
      && r.position == Some(after)
    case Exit(order, f, closed, kept) =>
      r.accepted && r.order == Some(order) && r.fill == Some(f) && r.position == Some(closed)
  }

  /** Only mark prices were added or refreshed. */
  ghost predicate Remarked(a: Account, b: Account) { b == a.(marks := b.marks) && a.marks.Keys <= b.marks.Keys }

  lemma SameHoldingsRefl(a: map<string, Position>)
    ensures SameHoldings(a, a)
  {
  }

  lemma ScaledFees(p: Position, d: Decision, quantity: real, price: real, leverage: real, fee: real, ts: int)
    requires p.quantity > 0.0 && quantity > 0.0
    ensures var q := ScaledPosition(p, d, quantity, price, leverage, fee, ts);
      && q.EntryFees() == p.EntryFees() + fee
      && q.quantity * q.entryPrice == p.quantity * p.entryPrice + quantity * price
  {
    var q := ScaledPosition(p, d, quantity, price, leverage, fee, ts);
    assert Get(q.metadata, ENTRY_FEES_TOTAL) == Num(p.EntryFees() + fee);
    OrderBook.DivideOut(q.quantity, q.entryPrice, p.quantity * p.entryPrice + quantity * price);
  }

  lemma OpenedFees(cfg: BrokerConfig, d: Decision, direction: Direction, quantity: real, price: real, leverage: real,
                   fee: real, ts: int)
    ensures var q := OpenedPosition(cfg, d, direction, quantity, price, leverage, fee, ts);
      && q.EntryFees() == fee
      && Decimal(q.metadata, ENTRY_EFFECTIVE_FEE_RATE) == Some(cfg.EffectiveRate(FeeTypeOf(d.signal, cfg.entryFeeType)))
  {
    var q := OpenedPosition(cfg, d, direction, quantity, price, leverage, fee, ts);
    assert Get(q.metadata, ENTRY_FEES_TOTAL) == Num(fee);
  }

  lemma EnterAtMoves(cfg: BrokerConfig, a: Account, d: Decision, direction: Direction, existing: Option<Position>,
                     quantity: real, price: real, leverage: real, ts: int)
    requires cfg.Valid() && Filed(cfg, a) && d.signal.action.IsEntry() && quantity > 0.0
    requires existing == (if d.signal.pair in a.positions then Some(a.positions[d.signal.pair]) else None)
    ensures var r := EnterAt(cfg, a, d, direction, existing, quantity, price, leverage, ts);
      && EntryMove(cfg, a, r.0, r.1.order.value, r.1.fill.value, r.1.position.value)
      && (existing.None? ==> r.1.position.value.direction == direction)
  {
    var fee := cfg.Fee(cfg.MarginNotional(quantity, price), FeeTypeOf(d.signal, cfg.entryFeeType));
    StopTheorems.FeeNonNegative(cfg, cfg.MarginNotional(quantity, price), FeeTypeOf(d.signal, cfg.entryFeeType));
    if existing.Some? {
      ScaledFees(existing.value, d, quantity, price, leverage, fee, ts);
    } else {
      OpenedFees(cfg, d, direction, quantity, price, leverage, fee, ts);
    }
  }

  lemma EntryMoveFromMark(cfg: BrokerConfig, a: Account, marked: Account, b: Account, order: Order, f: Fill,
                          after: Position)
    requires Remarked(a, marked) && EntryMove(cfg, marked, b, order, f, after)
    ensures EntryMove(cfg, a, b, order, f, after)
  {
  }

  lemma MarksOnlyQuiet(a: Account, b: Account)
    requires Remarked(a, b)
    ensures QuietMove(a, b)
  {
  }

  lemma MarkedRefusalQuiet(a: Account, marked: Account, s: Signal, market: Option<real>, d: Option<Decision>)
    requires Remarked(a, marked)
    ensures var r := Refuse(marked, s, market, Invalid, d);
      QuietMove(a, r.0) && Reports(r.1, Quiet) && Remarked(a, r.0)
  {
    MarksOnlyQuiet(a, Refuse(marked, s, market, Invalid, d).0);
  }

  lemma MarkedEntryMoves(cfg: BrokerConfig, a: Account, marked: Account, d: Decision, direction: Direction,
                         existing: Option<Position>, price: real, leverage: real, ts: int) returns (m: Move)
    requires cfg.Valid() && Filed(cfg, a) && d.signal.action.IsEntry() && Remarked(a, marked)
    requires d.positionSize.Some? && d.positionSize.value > 0.0
    requires existing == (if d.signal.pair in a.positions then Some(a.positions[d.signal.pair]) else None)
    ensures var r := EnterAt(cfg, marked, d, direction, existing, d.positionSize.value, price, leverage, ts);
      && Moves(cfg, a, r.0, m) && Reports(r.1, m) && m.Entry?
      && m.order.action == d.signal.action && m.fill.pair == d.signal.pair
      && (existing.None? ==> m.after.direction == direction)
  {
    var r := EnterAt(cfg, marked, d, direction, existing, d.positionSize.value, price, leverage, ts);
    m := Entry(r.1.order.value, r.1.fill.value, r.1.position.value);
    EnterAtMoves(cfg, marked, d, direction, existing, d.positionSize.value, price, leverage, ts);
    EntryMoveFromMark(cfg, a, marked, r.0, m.order, m.fill, m.after);
  }

  lemma EnterMoves(cfg: BrokerConfig, a: Account, d: Decision, direction: Direction, existing: Option<Position>,
                   base: real, market: Option<real>, ts: int) returns (m: Move)
    requires cfg.Valid() && Filed(cfg, a) && d.signal.action.IsEntry()
    requires d.positionSize.Some? && d.positionSize.value > 0.0
    requires existing == (if d.signal.pair in a.positions then Some(a.positions[d.signal.pair]) else None)
    ensures var r := Enter(cfg, a, d, direction, existing, base, market, ts);
      && Moves(cfg, a, r.0, m) && Reports(r.1, m) && (m.Quiet? || m.Entry?)
      && (m.Quiet? ==> Remarked(a, r.0))
      && (m.Entry? ==> m.order.action == d.signal.action && m.fill.pair == d.signal.pair)
      && (m.Entry? && existing.None? ==> m.after.direction == direction)
  {
    var marked := WithMark(a, d.signal.pair, Some(base));
    var leverage, price := EntryLeverage(d, existing), EntryPrice(cfg, a, d, base);
    if MarginRefused(cfg, marked, d, d.positionSize.value, price, leverage) {
      MarkedRefusalQuiet(a, marked, d.signal, market, Some(d));
      m := Quiet;
    } else {
      m := MarkedEntryMoves(cfg, a, marked, d, direction, existing, price, leverage, ts);
    }
  }

  lemma ShareFees(p: Position, share: real, ts: int)
    requires 0.0 < share < 1.0 && p.EntryFees() >= 0.0 && p.quantity > 0.0
    ensures Splits(p, ClosedShare(p, share), Some(KeptShare(p, share, ts)))
  {
    TimesOrder(p.EntryFees(), share, 1.0);
    TimesStrict(p.quantity, 0.0, share);
    TimesStrict(p.quantity, share, 1.0);
    assert Get(ClosedShare(p, share).metadata, ENTRY_FEES_TOTAL) == Num(p.EntryFees() * share);
    assert Get(KeptShare(p, share, ts).metadata, ENTRY_FEES_TOTAL)
      == Num(Max(p.EntryFees() - p.EntryFees() * share, 0.0));
  }

  lemma LeaveAtMoves(cfg: BrokerConfig, a: Account, p: Position, closed: Position, kept: Option<Position>,
                     price: real, fee: real, ts: int, reason: Reason, d: Option<Decision>) returns (m: Move)
    requires p.pair in a.positions && a.positions[p.pair] == p && Splits(p, closed, kept) && fee >= 0.0
    ensures var r := LeaveAt(cfg, a, p, closed, kept, price, fee, ts, reason, d);
      Moves(cfg, a, r.0, m) && Reports(r.1, m) && m.Exit? && m.fill.pair == p.pair && m.kept == kept
  {
    var r := LeaveAt(cfg, a, p, closed, kept, price, fee, ts, reason, d);
    m := Exit(r.1.order.value, r.1.fill.value, closed, kept);
  }

  lemma LeaveMoves(cfg: BrokerConfig, a: Account, p: Position, s: Signal, closed: Position, kept: Option<Position>,
                   base: real, ts: int, reason: Reason, d: Option<Decision>) returns (m: Move)
    requires cfg.Valid() && p.pair in a.positions && a.positions[p.pair] == p && Splits(p, closed, kept)
    ensures var r := Leave(cfg, a, p, s, closed, kept, base, ts, reason, d);
      Moves(cfg, a, r.0, m) && Reports(r.1, m) && m.Exit? && m.fill.pair == p.pair && m.kept == kept
  {
    var price := ExitPrice(cfg, a, p, closed.quantity, s, base);
    var notional := if kept.Some? then cfg.MarginNotional(closed.quantity, price) else p.MarginNotional(price);
    StopTheorems.FeeNonNegative(cfg, notional, FeeTypeOf(s, cfg.exitFeeType));
    m := LeaveAtMoves(cfg, a, p, closed, kept, price, ExitFee(cfg, p, s, closed, kept, price), ts, reason, d);
  }

  lemma SplitsWhole(p: Position)
    requires p.quantity > 0.0
    ensures Splits(p, p, None)
  {
  }

  lemma AcceptedCloseMoves(cfg: BrokerConfig, a: Account, s: Signal, market: Option<real>, ts: int,
                           d: Option<Decision>, reason: Reason)
    returns (m: Move)
    requires cfg.Valid() && Filed(cfg, a) && !CloseRefused(a, s, market)
    ensures var r := Close(cfg, a, s, market, ts, d, reason);
      Moves(cfg, a, r.0, m) && Reports(r.1, m) && m.Exit? && m.fill.pair == s.pair && m.kept.None?
  {
    var p := a.positions[s.pair];
    SplitsWhole(p);
    m := LeaveMoves(cfg, a, p, s, p, None, OrElse(market, s.entryPrice).value, ts, reason, d);
  }

  lemma RefusedQuiet(a: Account, s: Signal, market: Option<real>, reason: Reason, d: Option<Decision>)
    ensures var r := Refuse(a, s, market, reason, d);
      QuietMove(a, r.0) && Reports(r.1, Quiet) && Remarked(a, r.0)
  {
    MarksOnlyQuiet(a, Refuse(a, s, market, reason, d).0);
  }

  lemma CloseMoves(cfg: BrokerConfig, a: Account, s: Signal, market: Option<real>, ts: int, d: Option<Decision>,
                   reason: Reason)
    returns (m: Move)
    requires cfg.Valid() && Filed(cfg, a)
    ensures var r := Close(cfg, a, s, market, ts, d, reason);
      && Moves(cfg, a, r.0, m) && Reports(r.1, m) && (m.Quiet? || m.Exit?)
      && (m.Quiet? ==> Remarked(a, r.0))
      && (m.Exit? ==> m.fill.pair == s.pair && m.kept.None?)
  {
    if CloseRefused(a, s, market) {
      RefusedQuiet(a, s, market, Invalid, d);
      m := Quiet;
    } else {
      m := AcceptedCloseMoves(cfg, a, s, market, ts, d, reason);
    }
  }

  lemma PartialCloseMoves(cfg: BrokerConfig, a: Account, s: Signal, market: Option<real>, ts: int,
                          d: Option<Decision>, reason: Reason)
    returns (m: Move)
    requires cfg.Valid() && Filed(cfg, a)
    ensures var r := PartialClose(cfg, a, s, market, ts, d, reason);
      && Moves(cfg, a, r.0, m) && Reports(r.1, m) && (m.Quiet? || m.Exit?)
      && (m.Quiet? ==> Remarked(a, r.0))
      && (m.Exit? ==> m.fill.pair == s.pair)
  {
    var share := ShareOf(a, s);
    if PartialRefused(a, s, market, share) {
      RefusedQuiet(a, s, market, Invalid, d);
      m := Quiet;
    } else {
      var p := a.positions[s.pair];
      ShareFees(p, share, ts);
      m := LeaveMoves(cfg, a, p, s, ClosedShare(p, share), Some(KeptShare(p, share, ts)),
                      OrElse(market, s.entryPrice).value, ts, reason, d);
    }
  }

  lemma OpenMoves(cfg: BrokerConfig, a: Account, d: Decision, market: Option<real>, ts: int) returns (m: Move)
    requires cfg.Valid() && Filed(cfg, a) && d.signal.action.IsEntry()
    ensures var r := Open(cfg, a, d, market, ts);
      && Moves(cfg, a, r.0, m) && Reports(r.1, m) && (m.Quiet? || m.Entry?)
      && (m.Quiet? ==> Remarked(a, r.0))
      && (m.Entry? ==> d.signal.action == m.order.action && m.fill.pair == d.signal.pair
                       && d.signal.direction == Some(m.after.direction))
  {
    var s, base := d.signal, OrElse(market, d.signal.entryPrice);
    if NotPositive(d.positionSize) || s.direction.None? || NotPositive(base)
      || (s.pair in a.positions && !CanScaleIn(s, a.positions[s.pair])) {
      RefusedQuiet(a, s, market, Invalid, Some(d));
      m := Quiet;
    } else {
      m := EnterMoves(cfg, a, d, s.direction.value, if s.pair in a.positions then Some(a.positions[s.pair]) else None,
                      base.value, market, ts);
    }
  }

  /** A decision moves the books only when approved, and as an entry or exit only as asked. */
  lemma ExecuteMoves(cfg: BrokerConfig, a: Account, d: Decision, market: Option<real>, ts: int) returns (m: Move)
    requires cfg.Valid() && Filed(cfg, a)
    ensures var r := Execute(cfg, a, d, market, ts);
      && Moves(cfg, a, r.0, m) && Reports(r.1, m)
      && (m.Quiet? ==> Remarked(a, r.0))
      && !m.Manual?
      && (m.Entry? ==>
            d.approved && d.signal.action == m.order.action && m.fill.pair == d.signal.pair
            && d.signal.direction == Some(m.after.direction))
      && (m.Exit? ==> d.approved && d.signal.action.IsExit() && m.kept.None? && m.fill.pair == d.signal.pair)
  {
    if d.approved && d.signal.action.IsEntry() {
      m := OpenMoves(cfg, a, d, market, ts);
    } else if d.approved && d.signal.action.IsExit() {
      m := CloseMoves(cfg, a, d.signal, market, ts, Some(d), d.signal.reason);
    } else {
      RefusedQuiet(a, d.signal, market, if d.approved then Invalid else Refused, Some(d));
      m := Quiet;
    }
  }

  lemma TrailingKeepsHolding(cfg: BrokerConfig, p: Position, c: Candle)
    ensures SameHolding(p, StopManagement.UpdateTrailingStop(cfg, p, c))
  {
  }

  lemma MovesAfterReset(cfg: BrokerConfig, a: Account, day: int, c: Account, m: Move)
    requires Moves(cfg, ResetDay(a, day), c, m) && (m.Quiet? || m.Exit?)
    ensures Moves(cfg, a, c, m)
  {
  }

  lemma TrailMoves(cfg: BrokerConfig, b: Account, c: Candle)
    requires Filed(cfg, b) && c.pair in b.positions
    ensures QuietMove(b, WithTrail(cfg, b, b.positions[c.pair], c))
  {
    TrailingKeepsHolding(cfg, b.positions[c.pair], c);
    SameHoldingsRefl(b.positions);
  }

  lemma OnCandleQuiet(cfg: BrokerConfig, b: Account, c: Candle)
    requires Filed(cfg, b)
    requires c.pair in b.positions ==> ExitTriggers.TriggerFor(b.positions[c.pair], c).None?
    ensures var r := AfterReset(cfg, b, c); QuietMove(b, r.0) && r.1.None? && r.0.fundingPaid == b.fundingPaid
  {
    if c.pair in b.positions { TrailMoves(cfg, b, c); } else { SameHoldingsRefl(b.positions); }
  }

  lemma AfterResetMoves(cfg: BrokerConfig, b: Account, c: Candle) returns (m: Move)
    requires cfg.Valid() && Filed(cfg, b)
    ensures var r := AfterReset(cfg, b, c);
      && Moves(cfg, b, r.0, m) && (m.Quiet? || m.Exit?)
      && (r.1.None? ==> m.Quiet?) && (r.1.Some? ==> Reports(r.1.value, m))
      && (m.Exit? ==> m.fill.pair == c.pair)
      && r.0.fundingPaid == b.fundingPaid
  {
    if c.pair in b.positions && ExitTriggers.TriggerFor(b.positions[c.pair], c).Some? {
      m := TriggerMoves(cfg, b, c, ExitTriggers.TriggerFor(b.positions[c.pair], c).value);
    } else {
      OnCandleQuiet(cfg, b, c);
      m := Quiet;
    }
  }

  /** A candle never enters; it exits at most the position on its own pair. */
  lemma OnCandleMoves(cfg: BrokerConfig, a: Account, c: Candle) returns (m: Move)
    requires cfg.Valid() && Filed(cfg, a)
    ensures var r := OnCandle(cfg, a, c);
      && Moves(cfg, a, r.0, m) && (m.Quiet? || m.Exit?)
      && (r.1.None? ==> m.Quiet?) && (r.1.Some? ==> Reports(r.1.value, m))
      && (m.Exit? ==> m.fill.pair == c.pair)
      && r.0.fundingPaid == a.fundingPaid
  {
    m := AfterResetMoves(cfg, ResetDay(a, Day(c.closeTime)), c);
    MovesAfterReset(cfg, a, Day(c.closeTime), OnCandle(cfg, a, c).0, m);
  }

  lemma TriggerMoves(cfg: BrokerConfig, b: Account, c: Candle, t: ExitTriggers.Trigger) returns (m: Move)
    requires cfg.Valid() && Filed(cfg, b) && c.pair in b.positions
    ensures var r := TriggerExit(cfg, b, b.positions[c.pair], c, t);
      Moves(cfg, b, r.0, m) && Reports(r.1, m) && (m.Quiet? || m.Exit?) && (m.Exit? ==> m.fill.pair == c.pair)
      && r.0.fundingPaid == b.fundingPaid
  {
    var s := TriggerSignal(b.positions[c.pair], t);
    if t.partialPct.Some? {
      m := PartialCloseMoves(cfg, b, s, Some(t.price), c.closeTime, None, t.reason);
    } else {
      m := CloseMoves(cfg, b, s, Some(t.price), c.closeTime, None, t.reason);
    }
  }

  lemma ManagingKeepsHolding(cfg: BrokerConfig, p: Position, c: Candle, atr: Option<real>,
                             settings: StopManagement.ExitSettings, band: Option<TrailPolicies.Band>)
    requires StopManagement.UpdateDynamicExits(cfg, p, c, atr, settings, band).Ok?
    ensures SameHolding(p, StopManagement.UpdateDynamicExits(cfg, p, c, atr, settings, band).value)
  {
    if !StopManagement.Skips(p, c, atr, settings) {
      StopTheorems.ManageKeepsCosts(p, c, atr.value, StopManagement.PlanOf(cfg, p, c, atr.value, settings), band);
    }
  }

  lemma ManageExitsQuiet(cfg: BrokerConfig, a: Account, c: Candle, atr: Option<real>,
                         settings: StopManagement.ExitSettings, band: Option<TrailPolicies.Band>)
    requires Filed(cfg, a) && ManageExits(cfg, a, c, atr, settings, band).Ok?
    ensures QuietMove(a, ManageExits(cfg, a, c, atr, settings, band).value)
  {
    SameHoldingsRefl(a.positions);
    if c.pair in a.positions {
      ManagingKeepsHolding(cfg, a.positions[c.pair], c, atr, settings, band);
      var q := StopManagement.UpdateDynamicExits(cfg, a.positions[c.pair], c, atr, settings, band);
      HeldQuiet(a, c.pair, q.value);
    }
  }

  lemma HeldQuiet(a: Account, pair: string, q: Position)
    requires pair in a.positions && SameHolding(a.positions[pair], q)
    ensures QuietMove(a, a.(positions := a.positions[pair := q]))
  {
  }

  /** Every move leaves well-filed positions. */
  lemma MoveKeepsFiled(cfg: BrokerConfig, a: Account, b: Account, m: Move)
    requires Filed(cfg, a) && Moves(cfg, a, b, m)
    ensures Filed(cfg, b)
  {
    if m.Quiet? || m.Manual? {
      forall k | k in b.positions
        ensures b.positions[k].EntryFees() == a.positions[k].EntryFees()
      {
        SameFees(a.positions[k], b.positions[k]);
      }
    }
  }
}
