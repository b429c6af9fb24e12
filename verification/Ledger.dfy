/** The paper broker's account and what each operation does to it (`app/broker/paper.py`). */
module Ledger {
  import opened Common
  import opened Market
  import opened Sums
  import OrderBook
  import ExitTriggers
  import StopManagement
  import TrailPolicies

  datatype Order = Order(pair: string, side: Side, action: Action, quantity: real, price: real, leverage: real,
                         timestamp: int)

  datatype Fill = Fill(pair: string, side: Side, quantity: real, price: real, fee: real, timestamp: int,
                       realizedPnl: real)

  datatype Report = Report(
    accepted: bool, reason: Reason, order: Option<Order>, fill: Option<Fill>, position: Option<Position>,
    decision: Option<Decision>)

  datatype Account = Account(
    realizedPnl: real, feesPaid: real, fundingPaid: real,
    lockedProfit: real, unlockedProfit: real, tradableBase: real,
    dailyBaseStart: real, dailyLoss: real, overrideEnabled: bool, lastResetDay: Option<int>,
    positions: map<string, Position>, orders: seq<Order>, fills: seq<Fill>,
    marks: map<string, real>, books: map<string, Book>)

  function Fresh(cfg: BrokerConfig): Account
  {
    Account(0.0, 0.0, 0.0, 0.0, 0.0, cfg.startingEquity, cfg.startingEquity, 0.0, false, None, map[], [], [], map[],
            map[])
  }

  const DAY_MS := 86_400_000

  /** The UTC day a timestamp falls on. */
  function Day(timestamp: int): int { timestamp / DAY_MS }

  // ------------------------------------------------------------------ valuation

  /** Profit of every position that has a mark. */
  ghost function MarkedPnls(positions: map<string, Position>, marks: map<string, real>): map<string, real>
  {
    map p | p in positions && p in marks :: positions[p].UnrealizedPnl(marks[p])
  }

  ghost function Unrealized(positions: map<string, Position>, marks: map<string, real>): real
  {
    Sum(MarkedPnls(positions, marks))
  }

  /** `snapshot().equity`. */
  ghost function Equity(cfg: BrokerConfig, a: Account): real
  {
    cfg.startingEquity + a.realizedPnl + Unrealized(a.positions, a.marks) - a.feesPaid - a.fundingPaid
  }

  ghost function TradableEquity(cfg: BrokerConfig, a: Account): real { Equity(cfg, a) - a.lockedProfit }

  function WithMark(a: Account, pair: string, price: Option<real>): Account
  {
    if price.Some? then a.(marks := a.marks[pair := price.value]) else a
  }

  function BookOf(a: Account, pair: string): Option<Book> { if pair in a.books then Some(a.books[pair]) else None }

  // ------------------------------------------------------------------ refusals

  function Refuse(a: Account, s: Signal, market: Option<real>, reason: Reason, d: Option<Decision>): (Account, Report)
  {
    (WithMark(a, s.pair, market), Report(false, reason, None, None, None, d))
  }

  /** Python's `position_size is None or position_size <= 0` and its like. */
  predicate NotPositive(x: Option<real>) { x.None? || x.value <= 0.0 }

  /** Bankrupt, or the equity does not cover the required margin, the planned risk or the leveraged notional. */
  predicate MarginFails(equity: real, notional: real, leverage: real, plannedRisk: real)
  {
    || equity <= 0.0
    || equity < (if leverage > 0.0 then notional / leverage else notional)
    || equity < plannedRisk
    || notional > equity * leverage
  }

  /** `_entry_margin_check`, on the account already marked at the base price. */
  ghost predicate MarginRefused(cfg: BrokerConfig, a: Account, d: Decision, quantity: real, price: real, leverage: real)
  {
    MarginFails(Equity(cfg, a), cfg.MarginNotional(quantity, price), leverage,
                if d.maxLoss.Some? then d.maxLoss.value else 0.0)
  }

  // ------------------------------------------------------------------ entries

  function EntrySide(a: Action): Side { if a.EnterLong? then Buy else Sell }

  function FeeTypeOf(s: Signal, default: FeeType): FeeType { if s.feeType.Some? then s.feeType.value else default }

  predicate CanScaleIn(s: Signal, p: Position)
  {
    Holds(Get(s.metadata, ALLOW_SCALE_IN)) && s.direction == Some(p.direction) && s.strategy == p.strategy
  }

  /** What an entry will be filled at. */
  function EntryPrice(cfg: BrokerConfig, a: Account, d: Decision, base: real): real
    requires d.positionSize.Some?
  {
    OrderBook.FillPrice(BookOf(a, d.signal.pair), EntrySide(d.signal.action), d.positionSize.value, base,
                        cfg.slippagePct)
  }

  function OpenedPosition(cfg: BrokerConfig, d: Decision, direction: Direction, quantity: real, price: real,
                          leverage: real, fee: real, ts: int): Position
  {
    var s := d.signal;
    var feeType := FeeTypeOf(s, cfg.entryFeeType);
    Position(s.pair, direction, quantity, price, leverage, ts, ts, s.strategy, s.stopLoss, s.takeProfit, cfg.rate,
             cfg.unit,
      d.metadata + s.metadata
      + map[INITIAL_STOP_LOSS := OptNum(s.stopLoss),
            TRAILING_STOP_ENABLED := Flag(BoolMeta(s.metadata, TRAILING_STOP_ENABLED, cfg.trailingStopEnabled)),
            TRAILING_STOP_ACTIVATION_PCT := Num(DecMeta(s.metadata, TRAILING_STOP_ACTIVATION_PCT,
                                                        cfg.trailingActivationPct)),
            TRAILING_STOP_DISTANCE_PCT := Num(DecMeta(s.metadata, TRAILING_STOP_DISTANCE_PCT, cfg.trailingDistancePct)),
            ENTRY_FEE := Num(fee), ENTRY_EFFECTIVE_FEE_RATE := Num(cfg.EffectiveRate(feeType)),
            ENTRY_FEES_TOTAL := Num(fee)])
  }

  function ScaledPosition(p: Position, d: Decision, quantity: real, price: real, leverage: real, fee: real,
                          ts: int): Position
    requires p.quantity + quantity != 0.0
  {
    var s := d.signal;
    var total := p.quantity + quantity;
    p.(quantity := total, entryPrice := (p.quantity * p.entryPrice + quantity * price) / total, leverage := leverage,
       updatedAt := ts, strategy := s.strategy, stopLoss := OrElse(s.stopLoss, p.stopLoss), takeProfit := s.takeProfit,
       metadata := p.metadata + d.metadata + s.metadata + map[ENTRY_FEES_TOTAL := Num(p.EntryFees() + fee)])
  }

  /** Book a fill: cash fields, lists, the new position (or none), and the pair's mark. */
  function Post(a: Account, order: Order, fill: Fill, p: Option<Position>): Account
  {
    a.(realizedPnl := a.realizedPnl + fill.realizedPnl, feesPaid := a.feesPaid + fill.fee,
       positions := if p.Some? then a.positions[fill.pair := p.value] else a.positions - {fill.pair},
       orders := a.orders + [order], fills := a.fills + [fill], marks := a.marks[fill.pair := fill.price])
  }

  /** An accepted entry at its fill price. */
  function EnterAt(cfg: BrokerConfig, a: Account, d: Decision, direction: Direction, existing: Option<Position>,
                   quantity: real, price: real, leverage: real, ts: int): (Account, Report)
    requires quantity > 0.0 && (existing.Some? ==> existing.value.quantity > 0.0)
  {
    var s, side := d.signal, EntrySide(d.signal.action);
    var fee := cfg.Fee(cfg.MarginNotional(quantity, price), FeeTypeOf(s, cfg.entryFeeType));
    var order := Order(s.pair, side, s.action, quantity, price, leverage, ts);
    var fill := Fill(s.pair, side, quantity, price, fee, ts, 0.0);
    var p :=
      if existing.Some? then ScaledPosition(existing.value, d, quantity, price, leverage, fee, ts)
      else OpenedPosition(cfg, d, direction, quantity, price, leverage, fee, ts);
    (Post(a, order, fill, Some(p)),
     Report(true, if existing.Some? then ScaleInFilled else EntryFilled, Some(order), Some(fill), Some(p), Some(d)))
  }

  function EntryLeverage(d: Decision, existing: Option<Position>): real
  {
    if Truthy(d.leverage) then d.leverage.value else if existing.Some? then existing.value.leverage else 1.0
  }

  /** A sized entry at a positive base price: `_open_from_decision` or, on `existing`, the scale-in. */
  ghost function Enter(cfg: BrokerConfig, a: Account, d: Decision, direction: Direction, existing: Option<Position>,
                       base: real, market: Option<real>, ts: int): (Account, Report)
    requires d.positionSize.Some? && d.positionSize.value > 0.0
    requires existing.Some? ==> existing.value.quantity > 0.0
  {
    var leverage := EntryLeverage(d, existing);
    var price := EntryPrice(cfg, a, d, base);
    var marked := WithMark(a, d.signal.pair, Some(base));
    if MarginRefused(cfg, marked, d, d.positionSize.value, price, leverage) then
      Refuse(marked, d.signal, market, Invalid, Some(d))
    else EnterAt(cfg, marked, d, direction, existing, d.positionSize.value, price, leverage, ts)
  }

  ghost function Open(cfg: BrokerConfig, a: Account, d: Decision, market: Option<real>, ts: int): (Account, Report)
    requires forall k :: k in a.positions ==> a.positions[k].quantity > 0.0
  {
    var s := d.signal;
    var base := OrElse(market, s.entryPrice);
    if NotPositive(d.positionSize) || s.direction.None? then Refuse(a, s, market, Invalid, Some(d))
    else if s.pair in a.positions && !CanScaleIn(s, a.positions[s.pair]) then Refuse(a, s, market, Invalid, Some(d))
    else if NotPositive(base) then Refuse(a, s, market, Invalid, Some(d))
    else
      Enter(cfg, a, d, s.direction.value, if s.pair in a.positions then Some(a.positions[s.pair]) else None,
            base.value, market, ts)
  }

  // ------------------------------------------------------------------ exits

  predicate ExitMatches(a: Action, d: Direction) { a == ExitAction(d) }

  predicate IsStopExit(s: Signal) { IsRaw(Get(s.metadata, EXIT_TRIGGER_TYPE), "stop_loss") }

  function ExitSlippage(cfg: BrokerConfig, s: Signal): real
  {
    if IsStopExit(s) then cfg.StopSlippage() else cfg.slippagePct
  }

  function ExitPrice(cfg: BrokerConfig, a: Account, p: Position, quantity: real, s: Signal, base: real): real
  {
    OrderBook.FillPrice(BookOf(a, p.pair), ExitSide(p.direction), quantity, base, ExitSlippage(cfg, s))
  }

  /** The part of a trade result that is locked away. */
  function Locked(cfg: BrokerConfig, net: real): real
  {
    if net > 0.0 && cfg.profitLockEnabled then net * (cfg.autoLockPct / 100.0) else 0.0
  }

  function Loss(net: real): real { if net < 0.0 then -net else 0.0 }

  /** Profits are locked away, losses come out of the tradable base. */
  function LockResult(cfg: BrokerConfig, a: Account, net: real): Account
  {
    a.(lockedProfit := a.lockedProfit + Locked(cfg, net), tradableBase := a.tradableBase - Loss(net),
       dailyLoss := a.dailyLoss + Loss(net))
  }

  /** Sell (buy back) part of a position at a price and keep the rest, if any. */
  function LeaveAt(cfg: BrokerConfig, a: Account, p: Position, closed: Position, kept: Option<Position>, price: real,
                   fee: real, ts: int, reason: Reason, d: Option<Decision>): (Account, Report)
  {
    var gross := closed.UnrealizedPnl(price);
    var order := Order(p.pair, ExitSide(p.direction), ExitAction(p.direction), closed.quantity, price, p.leverage, ts);
    var fill := Fill(p.pair, ExitSide(p.direction), closed.quantity, price, fee, ts, gross);
    (Post(LockResult(cfg, a, gross - fee - closed.EntryFees()), order, fill, kept),
     Report(true, reason, Some(order), Some(fill), Some(closed), d))
  }

  function ExitFee(cfg: BrokerConfig, p: Position, s: Signal, closed: Position, kept: Option<Position>,
                   price: real): real
  {
    cfg.Fee(if kept.Some? then cfg.MarginNotional(closed.quantity, price) else p.MarginNotional(price),
            FeeTypeOf(s, cfg.exitFeeType))
  }

  function Leave(cfg: BrokerConfig, a: Account, p: Position, s: Signal, closed: Position, kept: Option<Position>,
                 base: real, ts: int, reason: Reason, d: Option<Decision>): (Account, Report)
  {
    var price := ExitPrice(cfg, a, p, closed.quantity, s, base);
    LeaveAt(cfg, a, p, closed, kept, price, ExitFee(cfg, p, s, closed, kept, price), ts, reason, d)
  }

  predicate CloseRefused(a: Account, s: Signal, market: Option<real>)
  {
    s.pair !in a.positions || !ExitMatches(s.action, a.positions[s.pair].direction)
      || NotPositive(OrElse(market, s.entryPrice))
  }

  function Close(cfg: BrokerConfig, a: Account, s: Signal, market: Option<real>, ts: int, d: Option<Decision>,
                 reason: Reason): (Account, Report)
  {
    if CloseRefused(a, s, market) then Refuse(a, s, market, Invalid, d)
    else
      var p := a.positions[s.pair];
      Leave(cfg, a, p, s, p, None, OrElse(market, s.entryPrice).value, ts, reason, d)
  }

  /** The closed share carries its share of the entry fees; the rest stays with the position. */
  function ClosedShare(p: Position, share: real): Position
  {
    var fees := Num(p.EntryFees() * share);
    p.(quantity := p.quantity * share,
       metadata := p.metadata + map[ENTRY_FEE := fees, ENTRY_FEES_TOTAL := fees,
                                    BB_PARTIAL_CLOSE_EXECUTED := Flag(true)])
  }

  function KeptShare(p: Position, share: real, ts: int): Position
  {
    var fees := Num(Max(p.EntryFees() - p.EntryFees() * share, 0.0));
    p.(quantity := p.quantity - p.quantity * share, updatedAt := ts,
       metadata := p.metadata + map[ENTRY_FEE := fees, ENTRY_FEES_TOTAL := fees,
                                    BB_PARTIAL_CLOSE_EXECUTED := Flag(true)])
  }

  /** The share a partial close asks for. */
  function ShareOf(a: Account, s: Signal): real
  {
    DecMeta(s.metadata, PARTIAL_CLOSE_PCT,
            if s.pair in a.positions then DecMeta(a.positions[s.pair].metadata, BB_TRAIL_PARTIAL_CLOSE_PCT, 0.60)
              else 0.60)
  }

  predicate PartialRefused(a: Account, s: Signal, market: Option<real>, share: real)
  {
    || s.pair !in a.positions || !ExitMatches(s.action, a.positions[s.pair].direction)
    || share <= 0.0 || share >= 1.0 || NotPositive(OrElse(market, s.entryPrice))
    || a.positions[s.pair].quantity * share <= 0.0
      || a.positions[s.pair].quantity * share >= a.positions[s.pair].quantity
  }

  function PartialClose(cfg: BrokerConfig, a: Account, s: Signal, market: Option<real>, ts: int, d: Option<Decision>,
                        reason: Reason): (Account, Report)
  {
    var share := ShareOf(a, s);
    if PartialRefused(a, s, market, share) then Refuse(a, s, market, Invalid, d)
    else
      var p := a.positions[s.pair];
      Leave(cfg, a, p, s, ClosedShare(p, share), Some(KeptShare(p, share, ts)), OrElse(market, s.entryPrice).value, ts,
            reason, d)
  }

  // ------------------------------------------------------------------ decisions and candles

  /** `execute_decision`. */
  ghost function Execute(cfg: BrokerConfig, a: Account, d: Decision, market: Option<real>, ts: int): (Account, Report)
    requires forall k :: k in a.positions ==> a.positions[k].quantity > 0.0
  {
    if !d.approved then Refuse(a, d.signal, market, Refused, Some(d))
    else if d.signal.action.IsEntry() then Open(cfg, a, d, market, ts)
    else if d.signal.action.IsExit() then Close(cfg, a, d.signal, market, ts, Some(d), d.signal.reason)
    else Refuse(a, d.signal, market, Invalid, Some(d))
  }

  function ResetDay(a: Account, day: int): Account
  {
    if a.lastResetDay == Some(day) then a
    else a.(dailyLoss := 0.0, dailyBaseStart := a.tradableBase, overrideEnabled := false, lastResetDay := Some(day))
  }

  /** The exit signal the broker sends itself when a candle triggers. */
  function TriggerSignal(p: Position, t: ExitTriggers.Trigger): Signal
  {
    var kind := if t.kind.StopLoss? then "stop_loss" else if t.kind.TakeProfit? then "take_profit"
      else "stagnation_time_stop";
    var m: Metadata := map[EXIT_TRIGGER_TYPE := Plain(kind)];
    Signal(p.strategy, p.pair, t.action, Some(p.direction), Some(t.price), None, None, t.reason, None,
           if t.partialPct.Some? then m[PARTIAL_CLOSE_PCT := Num(t.partialPct.value)] else m)
  }

  function TriggerExit(cfg: BrokerConfig, a: Account, p: Position, c: Candle,
                       t: ExitTriggers.Trigger): (Account, Report)
  {
    var s := TriggerSignal(p, t);
    if t.partialPct.Some? then PartialClose(cfg, a, s, Some(t.price), c.closeTime, None, t.reason)
    else Close(cfg, a, s, Some(t.price), c.closeTime, None, t.reason)
  }

  function WithTrail(cfg: BrokerConfig, a: Account, p: Position, c: Candle): Account
  {
    a.(positions := a.positions[p.pair := StopManagement.UpdateTrailingStop(cfg, p, c)])
  }

  function AfterReset(cfg: BrokerConfig, a: Account, c: Candle): (Account, Option<Report>)
  {
    if c.pair !in a.positions then (a, None)
    else
      var p := a.positions[c.pair];
      var t := ExitTriggers.TriggerFor(p, c);
      if t.None? then (WithTrail(cfg, a, p, c), None)
      else
        var r := TriggerExit(cfg, a, p, c, t.value);
        (r.0, Some(r.1))
  }

  /** `process_candle`: the day reset, then at most one exit, else the percentage trail. */
  function OnCandle(cfg: BrokerConfig, a: Account, c: Candle): (Account, Option<Report>)
  {
    AfterReset(cfg, ResetDay(a, Day(c.closeTime)), c)
  }

  /** `update_dynamic_atr_exits`; raising leaves the account as it was. */
  function ManageExits(cfg: BrokerConfig, a: Account, c: Candle, atr: Option<real>,
                       settings: StopManagement.ExitSettings,
                       band: Option<TrailPolicies.Band>): StopManagement.Outcome<Account>
  {
    if c.pair !in a.positions then StopManagement.Ok(a)
    else
      var q := StopManagement.UpdateDynamicExits(cfg, a.positions[c.pair], c, atr, settings, band);
      if q.Raises? then StopManagement.Raises
      else StopManagement.Ok(a.(positions := a.positions[a.positions[c.pair].pair := q.value]))
  }

  // ------------------------------------------------------------------ funding, marks, manual locks

  function FundingDue(p: Position, mark: real, rate: real): real
  {
    if mark <= 0.0 then 0.0
    else if p.direction.Long? then p.MarginNotional(mark) * rate
    else -(p.MarginNotional(mark) * rate)
  }

  /** Funding is charged at the given price of the pair, or at the entry price without one. */
  function FundingPrice(p: Position, pair: string, prices: map<string, real>): real
  {
    if pair in prices then prices[pair] else p.entryPrice
  }

  ghost function FundingDues(positions: map<string, Position>, prices: map<string, real>, rate: real): map<string, real>
  {
    map p | p in positions :: FundingDue(positions[p], FundingPrice(positions[p], p, prices), rate)
  }

  ghost function FundingTotal(positions: map<string, Position>, prices: map<string, real>, rate: real): real
  {
    Sum(FundingDues(positions, prices, rate))
  }

  ghost function ApplyFunding(a: Account, marks: map<string, real>, rate: real): Account
  {
    if rate == 0.0 then a else a.(fundingPaid := a.fundingPaid + FundingTotal(a.positions, marks, rate))
  }

  function LockProfit(a: Account, amount: real): Account
  {
    if amount <= 0.0 then a
    else
      var x := Min(amount, a.tradableBase);
      a.(tradableBase := a.tradableBase - x, lockedProfit := a.lockedProfit + x)
  }

  function UnlockProfit(a: Account, amount: real): Account
  {
    if amount <= 0.0 then a
    else
      var x := Min(amount, a.lockedProfit);
      a.(lockedProfit := a.lockedProfit - x, tradableBase := a.tradableBase + x, unlockedProfit := a.unlockedProfit + x)
  }

  function UpdateBook(a: Account, pair: string, bids: seq<Level>, asks: seq<Level>): Account
  {
    var b := OrderBook.CleanBook(bids, asks);
    if b.bids == [] && b.asks == [] then a else a.(books := a.books[pair := b])
  }
}
