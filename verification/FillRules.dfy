/** What the broker fills, at which price and for which fee, and what it opens. */
module FillRules {
  import opened Common
  import opened Market
  import opened Ledger
  import opened LedgerMoves
  import opened LedgerRuns
  import ExitRules
  import ExitTriggers
  import OrderBook
  import StopManagement

  // ------------------------------------------------------------------ prices

  /** The price an order is simulated from: the market's, or without one the signal's. */
  function BaseOf(s: Signal, market: Option<real>): Option<real>
  {
    if market.Some? && market.value != 0.0 then market else s.entryPrice
  }

  /** A price moved against the trader. */
  function Moved(price: real, side: Side, pct: real): real
  {
    if side.Buy? then price + PercentOf(price, pct) else price - PercentOf(price, pct)
  }

  /** The levels an order of this side is filled from. */
  function LevelsFor(a: Account, pair: string, side: Side): seq<Level>
  {
    if pair !in a.books then [] else if side.Buy? then a.books[pair].asks else a.books[pair].bids
  }

  /**
   * The price of a fill: without a usable book it is the base price moved by the slippage. A book deep enough for the
   * order decides the price alone; what goes beyond it is filled at the moved price.
   */
  ghost predicate FilledFrom(levels: seq<Level>, side: Side, quantity: real, base: real, pct: real, price: real)
  {
    var depth := OrderBook.Depth(levels);
    if levels == [] then price == Moved(base, side, pct)
    else if quantity <= depth then Times(quantity, price) == OrderBook.Sweep(levels, quantity).cost
    else Times(quantity, price) == OrderBook.Worth(levels) + Times(quantity - depth, Moved(base, side, pct))
  }

  lemma FillPriceIs(a: Account, pair: string, side: Side, quantity: real, base: real, pct: real)
    requires quantity > 0.0 && OrderBook.Usable(LevelsFor(a, pair, side))
    ensures FilledFrom(LevelsFor(a, pair, side), side, quantity, base, pct,
                       OrderBook.FillPrice(BookOf(a, pair), side, quantity, base, pct))
  {
    var levels := LevelsFor(a, pair, side);
    assert OrderBook.ApplySlippage(base, side, pct) == Moved(base, side, pct);
    if levels != [] && quantity <= OrderBook.Depth(levels) {
      OrderBook.DeepFillPrice(a.books[pair], side, quantity, base, pct);
      OrderBook.DivideOut(quantity, 0.0, OrderBook.Sweep(levels, quantity).cost);
    } else if levels != [] {
      OrderBook.ShallowFillPrice(a.books[pair], side, quantity, base, pct);
    }
  }

  // ------------------------------------------------------------------ fees

  /** The fee of a fill: its worth, times the maker's or the taker's rate, with tax on top. */
  ghost predicate PaysFee(cfg: BrokerConfig, f: Fill, t: FeeType)
  {
    var rate := match t case Maker => cfg.makerFeeRate case Taker => cfg.takerFeeRate;
    f.fee == Times(Abs(f.quantity * f.price * cfg.unit * cfg.rate), rate * (1.0 + cfg.feeGstRate))
  }

  lemma FeeIs(cfg: BrokerConfig, f: Fill, t: FeeType)
    requires f.fee == cfg.Fee(cfg.MarginNotional(f.quantity, f.price), t)
    ensures PaysFee(cfg, f, t)
  {
    FeeIsEffectiveRate(cfg, cfg.MarginNotional(f.quantity, f.price), t);
  }

  // ------------------------------------------------------------------ entries

  /** The account can carry the trade: with its equity it covers the planned loss, and with leverage the notional. */
  ghost predicate Carries(equity: real, notional: real, leverage: real, plannedLoss: real)
  {
    equity > 0.0 && plannedLoss <= equity && notional <= Times(equity, leverage)
  }

  lemma MarginExactly(equity: real, notional: real, leverage: real, plannedLoss: real)
    requires notional >= 0.0
    ensures MarginFails(equity, notional, leverage, plannedLoss) <==>
      !Carries(equity, notional, leverage, plannedLoss)
  {
    if leverage > 0.0 {
      RatioCompares(notional, leverage, equity);
    } else {
      TimesOrder(Max(equity, 0.0), leverage, 0.0);
    }
  }

  /** The pair is flat, or the decision may add to it: it says so, and comes from the same side and strategy. */
  ghost predicate MayEnter(a: Account, s: Signal)
  {
    s.pair in a.positions ==>
      var p := a.positions[s.pair];
      Holds(Get(s.metadata, ALLOW_SCALE_IN)) && s.direction == Some(p.direction) && s.strategy == p.strategy
  }

  /** The leverage asked for, else the position's, else none. */
  function LeverageFor(a: Account, d: Decision): real
  {
    if d.leverage.Some? && d.leverage.value != 0.0 then d.leverage.value
    else if d.signal.pair in a.positions then a.positions[d.signal.pair].leverage
    else 1.0
  }

  /** What the order would be filled at. */
  function PriceFor(cfg: BrokerConfig, a: Account, d: Decision, base: real): real
    requires d.positionSize.Some?
  {
    OrderBook.FillPrice(BookOf(a, d.signal.pair), if d.signal.action.EnterLong? then Buy else Sell,
                        d.positionSize.value, base, cfg.slippagePct)
  }

  /** The decision is complete, and its pair can be entered. */
  ghost predicate Ready(a: Account, d: Decision, market: Option<real>)
  {
    var base := BaseOf(d.signal, market);
    && d.approved && d.positionSize.Some? && d.positionSize.value > 0.0 && d.signal.direction.Some?
    && MayEnter(a, d.signal) && base.Some? && base.value > 0.0
  }

  /** What an entry would hold, and what it plans to lose. */
  function NotionalFor(cfg: BrokerConfig, a: Account, d: Decision, base: real): real
    requires d.positionSize.Some?
  {
    Abs(d.positionSize.value * PriceFor(cfg, a, d, base) * cfg.unit * cfg.rate)
  }

  function PlannedLoss(d: Decision): real { if d.maxLoss.Some? then d.maxLoss.value else 0.0 }

  /** And the account, valued at the base price, can carry the trade. */
  ghost predicate Affordable(cfg: BrokerConfig, a: Account, d: Decision, base: real)
    requires d.positionSize.Some?
  {
    Carries(Equity(cfg, WithMark(a, d.signal.pair, Some(base))),
            NotionalFor(cfg, a, d, base), LeverageFor(a, d), PlannedLoss(d))
  }

  function Existing(a: Account, pair: string): Option<Position>
  {
    if pair in a.positions then Some(a.positions[pair]) else None
  }

  lemma ReadyEnters(cfg: BrokerConfig, a: Account, d: Decision, market: Option<real>, ts: int)
    requires Filed(cfg, a) && d.signal.action.IsEntry()
    ensures if Ready(a, d, market) then
        Execute(cfg, a, d, market, ts) ==
          Enter(cfg, a, d, d.signal.direction.value, Existing(a, d.signal.pair), BaseOf(d.signal, market).value, market,
                ts)
      else !Execute(cfg, a, d, market, ts).1.accepted
  {
  }

  lemma RefusedOnMargin(cfg: BrokerConfig, a: Account, d: Decision, base: real, equity: real, notional: real)
    requires d.positionSize.Some? && notional == NotionalFor(cfg, a, d, base)
    requires equity == Equity(cfg, WithMark(a, d.signal.pair, Some(base)))
    ensures MarginRefused(cfg, WithMark(a, d.signal.pair, Some(base)), d, d.positionSize.value,
                          PriceFor(cfg, a, d, base), LeverageFor(a, d))
      == MarginFails(equity, notional, LeverageFor(a, d), PlannedLoss(d))
  {
    assert notional == cfg.MarginNotional(d.positionSize.value, PriceFor(cfg, a, d, base));
  }

  lemma AffordableExactly(cfg: BrokerConfig, a: Account, d: Decision, base: real)
    requires d.positionSize.Some?
    ensures var marked, price := WithMark(a, d.signal.pair, Some(base)), PriceFor(cfg, a, d, base);
      MarginRefused(cfg, marked, d, d.positionSize.value, price, LeverageFor(a, d)) <==> !Affordable(cfg, a, d, base)
  {
    var equity, notional := Equity(cfg, WithMark(a, d.signal.pair, Some(base))), NotionalFor(cfg, a, d, base);
    RefusedOnMargin(cfg, a, d, base, equity, notional);
    MarginExactly(equity, notional, LeverageFor(a, d), PlannedLoss(d));
  }

  lemma LeverageIs(a: Account, d: Decision)
    ensures EntryLeverage(d, Existing(a, d.signal.pair)) == LeverageFor(a, d)
  {
  }

  lemma EnterExactly(cfg: BrokerConfig, a: Account, d: Decision, direction: Direction, base: real,
                     market: Option<real>, ts: int)
    requires Filed(cfg, a) && d.positionSize.Some? && d.positionSize.value > 0.0 && d.signal.action.IsEntry()
    ensures var existing, q, price := Existing(a, d.signal.pair), d.positionSize.value, PriceFor(cfg, a, d, base);
      if Affordable(cfg, a, d, base) then
        Enter(cfg, a, d, direction, existing, base, market, ts) ==
          EnterAt(cfg, WithMark(a, d.signal.pair, Some(base)), d, direction, existing, q, price, LeverageFor(a, d), ts)
      else !Enter(cfg, a, d, direction, existing, base, market, ts).1.accepted
  {
    AffordableExactly(cfg, a, d, base);
    LeverageIs(a, d);
    assert EntryPrice(cfg, a, d, base) == PriceFor(cfg, a, d, base);
  }

  /** An entry decision is accepted if and only if it is complete, may enter and can be afforded. */
  lemma EntryAcceptedExactly(cfg: BrokerConfig, a: Account, d: Decision, market: Option<real>, ts: int)
    requires Filed(cfg, a) && d.signal.action.IsEntry()
    ensures Execute(cfg, a, d, market, ts).1.accepted <==>
      Ready(a, d, market) && Affordable(cfg, a, d, BaseOf(d.signal, market).value)
  {
    ReadyEnters(cfg, a, d, market, ts);
    if Ready(a, d, market) {
      EnterExactly(cfg, a, d, d.signal.direction.value, BaseOf(d.signal, market).value, market, ts);
    }
  }

  /** The terms of an accepted entry. */
  ghost predicate EntryTerms(cfg: BrokerConfig, a: Account, d: Decision, market: Option<real>, ts: int, o: Order,
                             f: Fill)
  {
    var s, base := d.signal, BaseOf(d.signal, market);
    && base.Some? && base.value > 0.0 && d.positionSize.Some?
    && f.pair == s.pair && f.side == (if s.action.EnterLong? then Buy else Sell)
    && f.quantity == d.positionSize.value > 0.0 && f.timestamp == ts && f.realizedPnl == 0.0
    && f.price == PriceFor(cfg, a, d, base.value)
    && PaysFee(cfg, f, if s.feeType.Some? then s.feeType.value else cfg.entryFeeType)
    && o == Order(s.pair, f.side, s.action, f.quantity, f.price, LeverageFor(a, d), ts)
  }

  /** The entries the broker itself records with a position it opens. */
  ghost predicate RecordsEntry(cfg: BrokerConfig, d: Decision, f: Fill, m: Metadata)
  {
    var s := d.signal;
    && Get(m, INITIAL_STOP_LOSS) == OptNum(s.stopLoss)
    && Get(m, ENTRY_FEE) == Get(m, ENTRY_FEES_TOTAL) == Num(f.fee)
    && Get(m, ENTRY_EFFECTIVE_FEE_RATE) ==
       Num(cfg.EffectiveRate(if s.feeType.Some? then s.feeType.value else cfg.entryFeeType))
    && Get(m, TRAILING_STOP_ENABLED) == Flag(BoolMeta(s.metadata, TRAILING_STOP_ENABLED, cfg.trailingStopEnabled))
    && Get(m, TRAILING_STOP_ACTIVATION_PCT)
       == Num(DecMeta(s.metadata, TRAILING_STOP_ACTIVATION_PCT, cfg.trailingActivationPct))
    && Get(m, TRAILING_STOP_DISTANCE_PCT)
       == Num(DecMeta(s.metadata, TRAILING_STOP_DISTANCE_PCT, cfg.trailingDistancePct))
  }

  /** What a position is given at entry; its other entries are the signal's and then the decision's. */
  predicate OwnKey(k: Key)
  {
    || k == INITIAL_STOP_LOSS || k == ENTRY_FEE || k == ENTRY_FEES_TOTAL || k == ENTRY_EFFECTIVE_FEE_RATE
    || k == TRAILING_STOP_ENABLED || k == TRAILING_STOP_ACTIVATION_PCT || k == TRAILING_STOP_DISTANCE_PCT
  }

  ghost predicate OpensWith(cfg: BrokerConfig, d: Decision, f: Fill, q: Position)
  {
    var s := d.signal;
    && s.direction == Some(q.direction) && q.pair == s.pair && q.quantity == f.quantity && q.entryPrice == f.price
    && q.openedAt == q.updatedAt == f.timestamp && q.strategy == s.strategy && q.rate == cfg.rate && q.unit == cfg.unit
    && q.stopLoss == s.stopLoss && q.takeProfit == s.takeProfit && RecordsEntry(cfg, d, f, q.metadata)
    && forall k :: !OwnKey(k) ==>
       Get(q.metadata, k) == if k in s.metadata then s.metadata[k] else Get(d.metadata, k)
  }

  /** What adding to a position changes: a new stop only if the signal names one, and its target in any case. */
  ghost predicate AddsWith(d: Decision, f: Fill, p: Position, q: Position)
  {
    var s := d.signal;
    && q == p.(quantity := p.quantity + f.quantity, entryPrice := q.entryPrice, leverage := q.leverage,
               updatedAt := f.timestamp, strategy := s.strategy, takeProfit := s.takeProfit,
               stopLoss := if s.stopLoss.Some? && s.stopLoss.value != 0.0 then s.stopLoss else p.stopLoss,
               metadata := q.metadata)
    && Times(q.quantity, q.entryPrice) == Times(p.quantity, p.entryPrice) + Times(f.quantity, f.price)
    && q.EntryFees() == p.EntryFees() + f.fee
    && forall k :: k != ENTRY_FEES_TOTAL ==>
       Get(q.metadata, k) == if k in s.metadata then s.metadata[k] else
                               if k in d.metadata then d.metadata[k] else Get(p.metadata, k)
  }

  lemma OpenedAs(cfg: BrokerConfig, d: Decision, direction: Direction, f: Fill, leverage: real)
    requires d.signal.direction == Some(direction) && d.signal.pair == f.pair
    ensures var q := OpenedPosition(cfg, d, direction, f.quantity, f.price, leverage, f.fee, f.timestamp);
      OpensWith(cfg, d, f, q) && q.leverage == leverage
  {
  }

  lemma ScaledAs(p: Position, d: Decision, f: Fill, leverage: real)
    requires p.quantity > 0.0 && f.quantity > 0.0
    ensures var q := ScaledPosition(p, d, f.quantity, f.price, leverage, f.fee, f.timestamp);
      AddsWith(d, f, p, q) && q.leverage == leverage
  {
    ScaledFees(p, d, f.quantity, f.price, leverage, f.fee, f.timestamp);
  }

  /** What an entry at a price does. */
  lemma EnterAtTerms(cfg: BrokerConfig, marked: Account, d: Decision, direction: Direction, quantity: real, price: real,
                     leverage: real, ts: int)
    requires quantity > 0.0 && d.signal.direction == Some(direction) && Filed(cfg, marked)
    ensures var pair, existing := d.signal.pair, Existing(marked, d.signal.pair);
      var r := EnterAt(cfg, marked, d, direction, existing, quantity, price, leverage, ts);
      && r.1.accepted && r.1.fill.Some? && r.1.position.Some? && r.1.decision == Some(d)
      && var f, q := r.1.fill.value, r.1.position.value;
      && f == Fill(pair, if d.signal.action.EnterLong? then Buy else Sell, quantity, price, f.fee, ts, 0.0)
      && PaysFee(cfg, f, if d.signal.feeType.Some? then d.signal.feeType.value else cfg.entryFeeType)
      && r.1.order == Some(Order(pair, f.side, d.signal.action, quantity, price, leverage, ts))
      && r.0.positions == marked.positions[pair := q] && q.leverage == leverage
      && r.0.marks == marked.marks[pair := price]
      && if existing.Some? then AddsWith(d, f, existing.value, q) else OpensWith(cfg, d, f, q)
  {
    var existing := Existing(marked, d.signal.pair);
    var f := EnterAt(cfg, marked, d, direction, existing, quantity, price, leverage, ts).1.fill.value;
    FeeIs(cfg, f, FeeTypeOf(d.signal, cfg.entryFeeType));
    if existing.Some? {
      ScaledAs(existing.value, d, f, leverage);
    } else {
      OpenedAs(cfg, d, direction, f, leverage);
    }
  }

  /**
   * An accepted entry: filled from the market price, whatever the signal names, for its fee; it opens a position with
   * the signal's stop and target, or adds to the one there is.
   */
  lemma EntryFills(cfg: BrokerConfig, a: Account, d: Decision, market: Option<real>, ts: int)
    requires Filed(cfg, a) && d.signal.action.IsEntry() && Execute(cfg, a, d, market, ts).1.accepted
    ensures var r, pair := Execute(cfg, a, d, market, ts), d.signal.pair;
      && r.1.fill.Some? && r.1.order.Some? && r.1.position.Some? && r.1.decision == Some(d)
      && EntryTerms(cfg, a, d, market, ts, r.1.order.value, r.1.fill.value)
      && r.1.position.value.leverage == LeverageFor(a, d)
      && r.0.positions == a.positions[pair := r.1.position.value]
      && r.0.marks == a.marks[pair := r.1.fill.value.price]
      && if pair in a.positions then AddsWith(d, r.1.fill.value, a.positions[pair], r.1.position.value)
         else OpensWith(cfg, d, r.1.fill.value, r.1.position.value)
  {
    ReadyEnters(cfg, a, d, market, ts);
    var base := BaseOf(d.signal, market).value;
    EnterExactly(cfg, a, d, d.signal.direction.value, base, market, ts);
    EnterAtTerms(cfg, WithMark(a, d.signal.pair, Some(base)), d, d.signal.direction.value, d.positionSize.value,
                 PriceFor(cfg, a, d, base), LeverageFor(a, d), ts);
    MarkedTwice(a.marks, d.signal.pair, base, PriceFor(cfg, a, d, base));
  }

  lemma MarkedTwice(marks: map<string, real>, pair: string, x: real, y: real)
    ensures marks[pair := x][pair := y] == marks[pair := y]
  {
  }

  /** Its price, by the levels there are. */
  lemma EntryPriced(cfg: BrokerConfig, a: Account, d: Decision, market: Option<real>, ts: int)
    requires Filed(cfg, a) && d.signal.action.IsEntry() && Execute(cfg, a, d, market, ts).1.accepted
    requires OrderBook.Usable(LevelsFor(a, d.signal.pair, if d.signal.action.EnterLong? then Buy else Sell))
    ensures var f := Execute(cfg, a, d, market, ts).1.fill;
      && f.Some? && BaseOf(d.signal, market).Some?
      && FilledFrom(LevelsFor(a, d.signal.pair, f.value.side), f.value.side, f.value.quantity,
                    BaseOf(d.signal, market).value, cfg.slippagePct, f.value.price)
  {
    EntryFills(cfg, a, d, market, ts);
    var side := if d.signal.action.EnterLong? then Buy else Sell;
    FillPriceIs(a, d.signal.pair, side, d.positionSize.value, BaseOf(d.signal, market).value, cfg.slippagePct);
  }

  /** A refused decision only marks its pair, with the market's price or else the price the entry was valued at. */
  lemma RefusalMarks(cfg: BrokerConfig, a: Account, d: Decision, market: Option<real>, ts: int)
    requires Filed(cfg, a) && !Execute(cfg, a, d, market, ts).1.accepted
    ensures var b := Execute(cfg, a, d, market, ts).0;
      b == a.(marks := if market.Some? then a.marks[d.signal.pair := market.value]
                       else if d.signal.action.IsEntry() && Ready(a, d, market) then
                         a.marks[d.signal.pair := BaseOf(d.signal, market).value]
                       else a.marks)
  {
    if d.signal.action.IsEntry() {
      ReadyEnters(cfg, a, d, market, ts);
      if Ready(a, d, market) {
        EnterRefused(cfg, a, d, d.signal.direction.value, BaseOf(d.signal, market).value, market, ts);
      }
    }
  }

  lemma EnterRefused(cfg: BrokerConfig, a: Account, d: Decision, direction: Direction, base: real,
                     market: Option<real>, ts: int)
    requires Filed(cfg, a) && d.positionSize.Some? && d.positionSize.value > 0.0 && d.signal.action.IsEntry()
    requires !Enter(cfg, a, d, direction, Existing(a, d.signal.pair), base, market, ts).1.accepted
    ensures Enter(cfg, a, d, direction, Existing(a, d.signal.pair), base, market, ts).0 ==
      a.(marks := a.marks[d.signal.pair := if market.Some? then market.value else base])
  {
    var marks := a.marks[d.signal.pair := base];
    assert market.Some? ==> marks[d.signal.pair := market.value] == a.marks[d.signal.pair := market.value];
  }

  // ------------------------------------------------------------------ exits

  /** Stop exits slip by the stop slippage, where there is one, and all others by the ordinary one. */
  function SlippageFor(cfg: BrokerConfig, s: Signal): real
  {
    var kind := Get(s.metadata, EXIT_TRIGGER_TYPE);
    if kind.Text? && kind.raw == "stop_loss" && cfg.stopSlippagePct.Some? then cfg.stopSlippagePct.value
    else cfg.slippagePct
  }

  /** There is a position to close in this direction, and a positive price. */
  ghost predicate Closable(a: Account, s: Signal, market: Option<real>)
  {
    && s.pair in a.positions && BaseOf(s, market).Some? && BaseOf(s, market).value > 0.0
    && s.action == (if a.positions[s.pair].direction.Long? then ExitLong else ExitShort)
  }

  /** The terms of an exit: so much of the position is sold, or bought back, from the base price. */
  ghost predicate ExitTerms(cfg: BrokerConfig, a: Account, s: Signal, base: real, ts: int, quantity: real, f: Fill)
  {
    && s.pair in a.positions && f.pair == s.pair && f.quantity == quantity && f.timestamp == ts
    && f.side == (if a.positions[s.pair].direction.Long? then Sell else Buy)
    && f.price == OrderBook.FillPrice(BookOf(a, s.pair), f.side, quantity, base, SlippageFor(cfg, s))
    && PaysFee(cfg, f, if s.feeType.Some? then s.feeType.value else cfg.exitFeeType)
  }

  /** An exit leaves the rest of the position, if any, and its price as the mark. */
  ghost predicate Leaves(a: Account, b: Account, pair: string, kept: Option<Position>, price: real)
  {
    && b.positions == (if kept.Some? then a.positions[pair := kept.value] else a.positions - {pair})
    && b.marks == a.marks[pair := price]
  }

  lemma LeaveTerms(cfg: BrokerConfig, a: Account, p: Position, s: Signal, closed: Position, kept: Option<Position>,
                   base: real, ts: int, reason: Reason, d: Option<Decision>)
    requires Filed(cfg, a) && s.pair in a.positions && a.positions[s.pair] == p && Splits(p, closed, kept)
    ensures var r := Leave(cfg, a, p, s, closed, kept, base, ts, reason, d);
      && r.1.accepted && r.1.fill.Some? && r.1.reason == reason && r.1.position == Some(closed)
      && ExitTerms(cfg, a, s, base, ts, closed.quantity, r.1.fill.value)
      && Leaves(a, r.0, s.pair, kept, r.1.fill.value.price)
  {
    var f := Leave(cfg, a, p, s, closed, kept, base, ts, reason, d).1.fill.value;
    assert p.MarginNotional(f.price) == cfg.MarginNotional(p.quantity, f.price);
    FeeIs(cfg, f, FeeTypeOf(s, cfg.exitFeeType));
  }

  /** A close is accepted if and only if there is something to close, and then closes all of it on these terms. */
  lemma CloseExactly(cfg: BrokerConfig, a: Account, s: Signal, market: Option<real>, ts: int, d: Option<Decision>,
                     reason: Reason)
    requires Filed(cfg, a)
    ensures var r := Close(cfg, a, s, market, ts, d, reason);
      && (r.1.accepted <==> Closable(a, s, market))
      && (r.1.accepted ==>
            && r.1.fill.Some? && r.1.reason == reason && r.1.position == Some(a.positions[s.pair])
            && ExitTerms(cfg, a, s, BaseOf(s, market).value, ts, a.positions[s.pair].quantity, r.1.fill.value)
            && Leaves(a, r.0, s.pair, None, r.1.fill.value.price))
      && (!r.1.accepted ==> r.0.positions == a.positions)
  {
    if Closable(a, s, market) {
      var p := a.positions[s.pair];
      SplitsWhole(p);
      LeaveTerms(cfg, a, p, s, p, None, BaseOf(s, market).value, ts, reason, d);
    }
  }

  /** The share a partial close asks for: the signal's, else the position's, else 60%. */
  function PartOf(a: Account, s: Signal): real
  {
    var own := if s.pair in a.positions then Get(a.positions[s.pair].metadata, BB_TRAIL_PARTIAL_CLOSE_PCT) else Null;
    if AsDecimal(Get(s.metadata, PARTIAL_CLOSE_PCT)).Some? then AsDecimal(Get(s.metadata, PARTIAL_CLOSE_PCT)).value
    else if AsDecimal(own).Some? then AsDecimal(own).value
    else 0.60
  }

  lemma PartIs(a: Account, s: Signal)
    ensures ShareOf(a, s) == PartOf(a, s)
  {
  }

  lemma PartialRefusedExactly(cfg: BrokerConfig, a: Account, s: Signal, market: Option<real>, part: real)
    requires Filed(cfg, a)
    ensures PartialRefused(a, s, market, part) <==> !(Closable(a, s, market) && 0.0 < part < 1.0)
  {
    if s.pair in a.positions && 0.0 < part < 1.0 { PartBetween(a.positions[s.pair].quantity, part); }
  }

  /** A partial close is accepted if and only if there is something to close and a part remains on both sides. */
  lemma PartialCloseExactly(cfg: BrokerConfig, a: Account, s: Signal, market: Option<real>, ts: int,
                            d: Option<Decision>, reason: Reason)
    requires Filed(cfg, a)
    ensures var r, part := PartialClose(cfg, a, s, market, ts, d, reason), PartOf(a, s);
      && (r.1.accepted <==> Closable(a, s, market) && 0.0 < part < 1.0)
      && (r.1.accepted ==>
            var p := a.positions[s.pair];
            && r.1.fill.Some? && r.1.reason == reason && s.pair in r.0.positions
            && ExitTerms(cfg, a, s, BaseOf(s, market).value, ts, Times(p.quantity, part), r.1.fill.value)
            && r.0.positions[s.pair].quantity == Times(p.quantity, 1.0 - part)
            && Leaves(a, r.0, s.pair, Some(r.0.positions[s.pair]), r.1.fill.value.price))
      && (!r.1.accepted ==> r.0.positions == a.positions)
  {
    var part := PartOf(a, s);
    PartIs(a, s);
    PartialRefusedExactly(cfg, a, s, market, part);
    if !PartialRefused(a, s, market, part) {
      var p := a.positions[s.pair];
      PartBetween(p.quantity, part);
      PartTerms(cfg, a, p, s, part, BaseOf(s, market).value, ts, reason, d);
    }
  }

  lemma PartTerms(cfg: BrokerConfig, a: Account, p: Position, s: Signal, part: real, base: real, ts: int,
                  reason: Reason, d: Option<Decision>)
    requires Filed(cfg, a) && s.pair in a.positions && a.positions[s.pair] == p && 0.0 < part < 1.0
    ensures var kept := KeptShare(p, part, ts);
      var r := Leave(cfg, a, p, s, ClosedShare(p, part), Some(kept), base, ts, reason, d);
      && r.1.accepted && r.1.fill.Some? && r.1.reason == reason
      && ExitTerms(cfg, a, s, base, ts, p.quantity * part, r.1.fill.value)
      && Leaves(a, r.0, s.pair, Some(kept), r.1.fill.value.price)
  {
    ShareFees(p, part, ts);
    LeaveTerms(cfg, a, p, s, ClosedShare(p, part), Some(KeptShare(p, part, ts)), base, ts, reason, d);
  }

  lemma PartBetween(quantity: real, part: real)
    requires quantity > 0.0 && 0.0 < part < 1.0
    ensures 0.0 < quantity * part < quantity && quantity - quantity * part == Times(quantity, 1.0 - part)
  {
    TimesStrict(quantity, 0.0, part);
    TimesStrict(quantity, part, 1.0);
  }

  // ------------------------------------------------------------------ results

  /** A profit is locked away at the automatic percentage; a loss leaves the base, and the day counts it. */
  ghost predicate Settles(cfg: BrokerConfig, a: Account, b: Account, net: real)
  {
    && b.lockedProfit - a.lockedProfit ==
       (if net > 0.0 && cfg.profitLockEnabled then PercentOf(net, cfg.autoLockPct) else 0.0)
    && a.tradableBase - b.tradableBase == b.dailyLoss - a.dailyLoss == Max(0.0, -net)
  }

  lemma LeaveSettles(cfg: BrokerConfig, a: Account, p: Position, s: Signal, closed: Position, kept: Option<Position>,
                     base: real, ts: int, reason: Reason, d: Option<Decision>)
    ensures var r := Leave(cfg, a, p, s, closed, kept, base, ts, reason, d);
      && r.1.fill.Some? && Settles(cfg, a, r.0, r.1.fill.value.realizedPnl - r.1.fill.value.fee - closed.EntryFees())
  {
  }

  /** The result of a close is its price move less its own fee and the entry fees carried, and settles so. */
  lemma CloseSettles(cfg: BrokerConfig, a: Account, s: Signal, market: Option<real>, ts: int, d: Option<Decision>,
                     reason: Reason)
    requires Filed(cfg, a) && Closable(a, s, market)
    ensures var r, p := Close(cfg, a, s, market, ts, d, reason), a.positions[s.pair];
      && r.1.fill.Some? && r.1.fill.value.realizedPnl == p.UnrealizedPnl(r.1.fill.value.price)
      && Settles(cfg, a, r.0, r.1.fill.value.realizedPnl - r.1.fill.value.fee - p.EntryFees())
  {
    var p := a.positions[s.pair];
    LeaveSettles(cfg, a, p, s, p, None, BaseOf(s, market).value, ts, reason, d);
  }

  /** A partial close settles its share of both. */
  lemma PartialCloseSettles(cfg: BrokerConfig, a: Account, s: Signal, market: Option<real>, ts: int,
                            d: Option<Decision>, reason: Reason)
    requires Filed(cfg, a) && Closable(a, s, market) && 0.0 < PartOf(a, s) < 1.0
    ensures var r, part, p := PartialClose(cfg, a, s, market, ts, d, reason), PartOf(a, s), a.positions[s.pair];
      && r.1.fill.Some?
      && Settles(cfg, a, r.0,
                 r.1.fill.value.realizedPnl - r.1.fill.value.fee - Times(p.EntryFees(), part))
  {
    var part, p := PartOf(a, s), a.positions[s.pair];
    PartIs(a, s);
    PartialRefusedExactly(cfg, a, s, market, part);
    var closed := ClosedShare(p, part);
    assert Get(closed.metadata, ENTRY_FEES_TOTAL) == Num(p.EntryFees() * part);
    LeaveSettles(cfg, a, p, s, closed, Some(KeptShare(p, part, ts)), BaseOf(s, market).value, ts, reason, d);
  }

  /** By hand, what is asked for is moved between the two ledgers, as far as the one it leaves has it. */
  lemma LocksExactly(a: Account, amount: real)
    ensures 0.0 < amount <= a.tradableBase ==> LockProfit(a, amount).lockedProfit == a.lockedProfit + amount
    ensures amount > 0.0 && amount >= a.tradableBase ==> LockProfit(a, amount).tradableBase == 0.0
    ensures 0.0 < amount <= a.lockedProfit ==> UnlockProfit(a, amount).tradableBase == a.tradableBase + amount
    ensures amount > 0.0 && amount >= a.lockedProfit ==> UnlockProfit(a, amount).lockedProfit == 0.0
    ensures amount <= 0.0 ==> LockProfit(a, amount) == UnlockProfit(a, amount) == a
  {
  }

  // ------------------------------------------------------------------ what a candle does

  /** The base price and the slippage of a triggered exit, and how much of the position it closes. */
  ghost predicate TriggeredTerms(cfg: BrokerConfig, p: Position, c: Candle, t: ExitTriggers.Trigger, book: Option<Book>,
                                 f: Fill)
  {
    && f.pair == p.pair && f.side == (if p.direction.Long? then Sell else Buy) && f.timestamp == c.closeTime
    && f.quantity == (if t.partialPct.Some? then Times(p.quantity, t.partialPct.value) else p.quantity)
    && f.price == OrderBook.FillPrice(book, f.side, f.quantity, t.price,
                                      if t.kind.StopLoss? && cfg.stopSlippagePct.Some? then cfg.stopSlippagePct.value
                                      else cfg.slippagePct)
    && PaysFee(cfg, f, cfg.exitFeeType)
  }

  lemma SignalReads(cfg: BrokerConfig, a: Account, p: Position, t: ExitTriggers.Trigger)
    ensures var s := TriggerSignal(p, t);
      && SlippageFor(cfg, s) == (if t.kind.StopLoss? && cfg.stopSlippagePct.Some? then cfg.stopSlippagePct.value
                                 else cfg.slippagePct)
      && (t.partialPct.Some? ==> PartOf(a, s) == t.partialPct.value)
  {
    var s := TriggerSignal(p, t);
    assert Get(s.metadata, EXIT_TRIGGER_TYPE).Text?;
  }

  /** A triggered exit is made if its price is positive and, for a partial one, a part remains on both sides. */
  lemma TriggerExitExactly(cfg: BrokerConfig, a: Account, p: Position, c: Candle, t: ExitTriggers.Trigger)
    requires Filed(cfg, a) && p.pair in a.positions && a.positions[p.pair] == p && t.action == ExitAction(p.direction)
    ensures var r := TriggerExit(cfg, a, p, c, t);
      && (r.1.accepted <==> t.price > 0.0 && (t.partialPct.Some? ==> 0.0 < t.partialPct.value < 1.0))
      && (r.1.accepted ==>
            r.1.fill.Some? && r.1.reason == t.reason
            && TriggeredTerms(cfg, p, c, t, BookOf(a, p.pair), r.1.fill.value))
  {
    var s := TriggerSignal(p, t);
    SignalReads(cfg, a, p, t);
    if t.partialPct.Some? {
      PartialCloseExactly(cfg, a, s, Some(t.price), c.closeTime, None, t.reason);
    } else {
      CloseExactly(cfg, a, s, Some(t.price), c.closeTime, None, t.reason);
    }
  }

  /** A candle makes the exit that is triggered on its pair, on those terms, and without one moves the trail. */
  lemma CandleExactly(cfg: BrokerConfig, a: Account, c: Candle)
    requires Filed(cfg, a)
    ensures var r := OnCandle(cfg, a, c);
      if c.pair !in a.positions then r.1.None? && r.0.positions == a.positions
      else
        var p := a.positions[c.pair];
        var t := ExitTriggers.TriggerFor(p, c);
        if t.None? then
          r.1.None? && r.0.positions == a.positions[c.pair := StopManagement.UpdateTrailingStop(cfg, p, c)]
        else
          && r.1.Some?
          && (r.1.value.accepted <==>
                t.value.price > 0.0 && (t.value.partialPct.Some? ==> 0.0 < t.value.partialPct.value < 1.0))
          && (r.1.value.accepted ==>
                && r.1.value.fill.Some? && r.1.value.reason == t.value.reason
                && TriggeredTerms(cfg, p, c, t.value, BookOf(a, c.pair), r.1.value.fill.value))
  {
    if c.pair in a.positions {
      var p, b := a.positions[c.pair], ResetDay(a, Day(c.closeTime));
      var t := ExitTriggers.TriggerFor(p, c);
      if t.Some? {
        ExitRules.TriggerRule(p, c);
        TriggerExitExactly(cfg, b, p, c, t.value);
      }
    }
  }

  /** A candle of a new day starts the day's account afresh; within a day it only adds what the base has lost. */
  lemma DayRolls(cfg: BrokerConfig, a: Account, c: Candle)
    requires cfg.Valid() && Filed(cfg, a)
    ensures var b, today := OnCandle(cfg, a, c).0, Some(Day(c.closeTime));
      var started := if a.lastResetDay == today then a else a.(dailyBaseStart := a.tradableBase, dailyLoss := 0.0);
      && b.lastResetDay == today && b.dailyBaseStart == started.dailyBaseStart
      && b.dailyLoss == started.dailyLoss + (a.tradableBase - b.tradableBase)
      && (b.overrideEnabled <==> a.overrideEnabled && a.lastResetDay == today)
  {
    var b := ResetDay(a, Day(c.closeTime));
    if c.pair in b.positions && ExitTriggers.TriggerFor(b.positions[c.pair], c).Some? {
      TriggerFrames(cfg, b, b.positions[c.pair], c, ExitTriggers.TriggerFor(b.positions[c.pair], c).value);
    }
  }

  /** What an exit leaves alone; what the day has lost is what the base has lost. */
  ghost predicate Framed(a: Account, b: Account)
  {
    && b.books == a.books && b.dailyLoss + b.tradableBase == a.dailyLoss + a.tradableBase
    && (b.dailyBaseStart, b.overrideEnabled, b.lastResetDay) == (a.dailyBaseStart, a.overrideEnabled, a.lastResetDay)
  }

  lemma LeaveFrames(cfg: BrokerConfig, a: Account, p: Position, closed: Position, kept: Option<Position>, price: real,
                    fee: real, ts: int, reason: Reason, d: Option<Decision>)
    ensures Framed(a, LeaveAt(cfg, a, p, closed, kept, price, fee, ts, reason, d).0)
  {
  }

  lemma RefuseFrames(a: Account, s: Signal, market: Option<real>, reason: Reason, d: Option<Decision>)
    ensures Framed(a, Refuse(a, s, market, reason, d).0)
  {
  }

  lemma CloseFrames(cfg: BrokerConfig, a: Account, s: Signal, market: Option<real>, ts: int, d: Option<Decision>,
                    reason: Reason)
    ensures Framed(a, Close(cfg, a, s, market, ts, d, reason).0)
  {
    RefuseFrames(a, s, market, Invalid, d);
    if !CloseRefused(a, s, market) {
      var p, base := a.positions[s.pair], OrElse(market, s.entryPrice).value;
      var price := ExitPrice(cfg, a, p, p.quantity, s, base);
      LeaveFrames(cfg, a, p, p, None, price, ExitFee(cfg, p, s, p, None, price), ts, reason, d);
    }
  }

  lemma PartialCloseFrames(cfg: BrokerConfig, a: Account, s: Signal, market: Option<real>, ts: int,
                           d: Option<Decision>, reason: Reason)
    ensures Framed(a, PartialClose(cfg, a, s, market, ts, d, reason).0)
  {
    var part := ShareOf(a, s);
    RefuseFrames(a, s, market, Invalid, d);
    if !PartialRefused(a, s, market, part) {
      var p, base := a.positions[s.pair], OrElse(market, s.entryPrice).value;
      var closed, kept := ClosedShare(p, part), Some(KeptShare(p, part, ts));
      var price := ExitPrice(cfg, a, p, closed.quantity, s, base);
      LeaveFrames(cfg, a, p, closed, kept, price, ExitFee(cfg, p, s, closed, kept, price), ts, reason, d);
    }
  }

  lemma TriggerFrames(cfg: BrokerConfig, a: Account, p: Position, c: Candle, t: ExitTriggers.Trigger)
    ensures Framed(a, TriggerExit(cfg, a, p, c, t).0)
  {
    var s := TriggerSignal(p, t);
    CloseFrames(cfg, a, s, Some(t.price), c.closeTime, None, t.reason);
    PartialCloseFrames(cfg, a, s, Some(t.price), c.closeTime, None, t.reason);
  }

  /** Days are UTC days: 24 hours from one midnight to the next. */
  lemma DayIsUtc(timestamp: int)
    ensures 0 <= timestamp - Day(timestamp) * (24 * 60 * 60 * 1000) < 24 * 60 * 60 * 1000
  {
  }

  // ------------------------------------------------------------------ books over a run

  lemma EntryKeepsBooks(cfg: BrokerConfig, a: Account, d: Decision, market: Option<real>, ts: int)
    requires Filed(cfg, a) && d.approved && d.signal.action.IsEntry()
    ensures Execute(cfg, a, d, market, ts).0.books == a.books
  {
    if Ready(a, d, market) {
      ReadyEnters(cfg, a, d, market, ts);
      EnterExactly(cfg, a, d, d.signal.direction.value, BaseOf(d.signal, market).value, market, ts);
    }
  }

  lemma DecisionKeepsBooks(cfg: BrokerConfig, a: Account, d: Decision, market: Option<real>, ts: int)
    requires Filed(cfg, a)
    ensures Execute(cfg, a, d, market, ts).0.books == a.books
  {
    if d.approved && d.signal.action.IsEntry() {
      EntryKeepsBooks(cfg, a, d, market, ts);
    } else if d.approved && d.signal.action.IsExit() {
      CloseFrames(cfg, a, d.signal, market, ts, Some(d), d.signal.reason);
    } else {
      RefuseFrames(a, d.signal, market, if d.approved then Invalid else Refused, Some(d));
    }
  }

  lemma CandleKeepsBooks(cfg: BrokerConfig, a: Account, c: Candle)
    ensures OnCandle(cfg, a, c).0.books == a.books
  {
    var b := ResetDay(a, Day(c.closeTime));
    if c.pair in b.positions && ExitTriggers.TriggerFor(b.positions[c.pair], c).Some? {
      TriggerFrames(cfg, b, b.positions[c.pair], c, ExitTriggers.TriggerFor(b.positions[c.pair], c).value);
    }
  }

  /** Only a received book changes the books. */
  lemma StepKeepsBooks(cfg: BrokerConfig, a: Account, e: Event)
    requires Filed(cfg, a) && !e.BookReceived?
    ensures Step(cfg, a, e).books == a.books
  {
    if e.Decided? { DecisionKeepsBooks(cfg, a, e.d, e.market, e.ts); }
    if e.CandleClosed? { CandleKeepsBooks(cfg, a, e.candle); }
  }

  ghost predicate Offers(bids: seq<Level>, asks: seq<Level>, l: Level)
  {
    (l in bids || l in asks) && l.price > 0.0 && l.quantity > 0.0
  }

  lemma KeptExactly(bids: seq<Level>, asks: seq<Level>, l: Level)
    ensures var b := OrderBook.CleanBook(bids, asks); (l in b.bids || l in b.asks) <==> Offers(bids, asks, l)
  {
    OrderBook.CleanBookKeeps(bids, asks, l);
    var b := OrderBook.CleanBook(bids, asks);
    assert forall s: seq<Level> :: l in s <==> multiset(s)[l] > 0;
  }

  lemma EmptyExactly(bids: seq<Level>, asks: seq<Level>)
    ensures var b := OrderBook.CleanBook(bids, asks);
      (b.bids == [] && b.asks == []) <==> (forall l :: !Offers(bids, asks, l))
  {
    var b := OrderBook.CleanBook(bids, asks);
    forall l ensures (l in b.bids || l in b.asks) <==> Offers(bids, asks, l) { KeptExactly(bids, asks, l); }
    assert b.bids != [] ==> b.bids[0] in b.bids;
    assert b.asks != [] ==> b.asks[0] in b.asks;
  }

  /** A received book with a usable level replaces the pair's, best price first; any other is ignored. */
  lemma BookReplaces(a: Account, pair: string, bids: seq<Level>, asks: seq<Level>, side: Side, l: Level)
    ensures var b, given := UpdateBook(a, pair, bids, asks), if side.Buy? then asks else bids;
      if forall x :: !Offers(bids, asks, x) then b == a
      else
        && b == a.(books := b.books) && b.books - {pair} == a.books - {pair}
        && multiset(LevelsFor(b, pair, side))[l] ==
           (if l.price > 0.0 && l.quantity > 0.0 then multiset(given)[l] else 0)
        && OrderBook.BestFirst(LevelsFor(b, pair, side), side)
  {
    EmptyExactly(bids, asks);
    if exists x :: Offers(bids, asks, x) {
      OrderBook.CleanBookKeeps(bids, asks, l);
      OrderBook.CleanBookIsSwept(bids, asks, side);
    }
  }

  /** Every book the broker keeps has positive prices and quantities, best price first. */
  ghost predicate BooksClean(a: Account)
  {
    forall pair, side: Side :: BookClean(a, pair, side)
  }

  ghost predicate BookClean(a: Account, pair: string, side: Side)
  {
    OrderBook.Usable(LevelsFor(a, pair, side)) && OrderBook.BestFirst(LevelsFor(a, pair, side), side)
  }

  /** After any run the books are what the fill prices above ask for. */
  lemma {:induction false} RunBooksClean(cfg: BrokerConfig, events: seq<Event>)
    requires cfg.Valid()
    ensures BooksClean(Run(cfg, events))
  {
    if events != [] {
      var init, e := events[..|events| - 1], events[|events| - 1];
      RunBooksClean(cfg, init);
      StepBooksClean(cfg, Run(cfg, init), e);
    }
  }

  lemma StepBooksClean(cfg: BrokerConfig, a: Account, e: Event)
    requires Filed(cfg, a) && BooksClean(a)
    ensures BooksClean(Step(cfg, a, e))
  {
    var b := Step(cfg, a, e);
    if !e.BookReceived? { StepKeepsBooks(cfg, a, e); }
    forall pair, side: Side ensures BookClean(b, pair, side) {
      assert BookClean(a, pair, side);
      if e.BookReceived? { OrderBook.CleanBookIsSwept(e.bids, e.asks, side); }
    }
  }
}
