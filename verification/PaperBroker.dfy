/** The broker object: its fields are updated in place and follow the account functions of `Ledger`. */
module PaperBroker {
  import opened Common
  import opened Market
  import opened Sums
  import opened Ledger
  import opened LedgerMoves
  import OrderBook
  import ExitTriggers
  import StopManagement
  import TrailPolicies

  /** What `snapshot` reports, as far as the engine reads it. */
  datatype Snapshot = Snapshot(
    unrealizedPnl: real, equity: real, tradableEquity: real, tradableBase: real, lockedProfit: real,
    dailyLoss: real, openPositions: nat, overrideEnabled: bool)

  class Broker {
    const cfg: BrokerConfig

    var realizedPnl: real
    var feesPaid: real
    var fundingPaid: real
    var lockedProfit: real
    var unlockedProfit: real
    var tradableBase: real
    var dailyBaseStart: real
    var dailyLoss: real
    var overrideEnabled: bool
    var lastResetDay: Option<int>
    var positions: map<string, Position>
    var orders: seq<Order>
    var fills: seq<Fill>
    var marks: map<string, real>
    var books: map<string, Book>

    function State(): Account
      reads this
    {
      Account(realizedPnl, feesPaid, fundingPaid, lockedProfit, unlockedProfit, tradableBase, dailyBaseStart, dailyLoss,
              overrideEnabled, lastResetDay, positions, orders, fills, marks, books)
    }

    ghost predicate Valid()
      reads this
    {
      cfg.Valid() && Filed(cfg, State())
    }

    constructor (cfg: BrokerConfig)
      requires cfg.Valid()
      ensures Valid() && this.cfg == cfg && State() == Fresh(cfg)
    {
      this.cfg := cfg;
      realizedPnl, feesPaid, fundingPaid := 0.0, 0.0, 0.0;
      lockedProfit, unlockedProfit := 0.0, 0.0;
      tradableBase, dailyBaseStart, dailyLoss := cfg.startingEquity, cfg.startingEquity, 0.0;
      overrideEnabled, lastResetDay := false, None;
      positions, orders, fills, marks, books := map[], [], [], map[], map[];
    }

    // ---------------------------------------------------------------- reading the account

    /** The loop of `_paper_fill_price`: walk the visible levels until the order is filled. */
    static method SweepBook(levels: seq<Level>, quantity: real) returns (filled: real, notional: real, remaining: real)
      ensures OrderBook.Taken(filled, notional) == OrderBook.Sweep(levels, quantity) && remaining == quantity - filled
    {
      remaining, filled, notional := quantity, 0.0, 0.0;
      var i := 0;
      while i < |levels| && remaining > 0.0
        invariant 0 <= i <= |levels|
        invariant remaining == quantity - filled
        invariant OrderBook.Sweep(levels, quantity) ==
          OrderBook.Taken(filled + OrderBook.Sweep(levels[i..], remaining).filled,
                          notional + OrderBook.Sweep(levels[i..], remaining).cost)
      {
        var take := Min(remaining, levels[i].quantity);
        assert levels[i..][1..] == levels[i + 1..];
        notional := notional + Times(take, levels[i].price);
        filled := filled + take;
        remaining := remaining - take;
        i := i + 1;
      }
    }

    /** `_paper_fill_price`: the book where it reaches, the fixed slippage for the rest. */
    method FillPrice(pair: string, side: Side, quantity: real, base: real, pct: real) returns (price: real)
      ensures price == OrderBook.FillPrice(BookOf(State(), pair), side, quantity, base, pct)
    {
      var fixed := OrderBook.ApplySlippage(base, side, pct);
      if pair !in books || quantity <= 0.0 {
        return fixed;
      }
      var filled, notional, remaining := SweepBook(OrderBook.BookSide(books[pair], side), quantity);
      if filled <= 0.0 {
        return fixed;
      }
      if remaining > 0.0 {
        notional := notional + Times(remaining, fixed);
      }
      price := notional / quantity;
    }

    /** The unrealised part of `snapshot`: positions without a mark contribute nothing. */
    method OpenPnl() returns (total: real)
      ensures total == Unrealized(positions, marks)
    {
      var rest := positions;
      total := 0.0;
      while rest != map[]
        invariant rest.Keys <= positions.Keys && forall p :: p in rest ==> rest[p] == positions[p]
        invariant total + Unrealized(rest, marks) == Unrealized(positions, marks)
        decreases |rest|
      {
        var p :| p in rest;
        UnrealizedTakeOut(rest, marks, p);
        if p in marks {
          total := total + rest[p].UnrealizedPnl(marks[p]);
        }
        rest := rest - {p};
      }
      NothingUnrealized(marks);
    }

    method UpdateMarkPrices(prices: map<string, real>)
      modifies this`marks
      ensures marks == old(marks) + prices
    {
      var rest := prices;
      ghost var done: map<string, real> := map[];
      while rest != map[]
        invariant done.Keys !! rest.Keys && done + rest == prices
        invariant marks == old(marks) + done
        decreases |rest|
      {
        var p :| p in rest;
        MoveOver(old(marks), done, rest, p);
        marks := marks[p := rest[p]];
        done := done[p := rest[p]];
        rest := rest - {p};
      }
    }

    /** Refresh the given marks, then value the account. */
    method TakeSnapshot(prices: map<string, real>) returns (s: Snapshot)
      modifies this`marks
      ensures marks == old(marks) + prices
      ensures s.equity == Equity(cfg, State()) && s.tradableEquity == TradableEquity(cfg, State())
      ensures s.tradableBase == tradableBase && s.dailyLoss == dailyLoss && s.overrideEnabled == overrideEnabled
      ensures s.openPositions == |positions| && s.lockedProfit == lockedProfit
        && s.unrealizedPnl == Unrealized(positions, marks)
    {
      UpdateMarkPrices(prices);
      var unrealized := OpenPnl();
      var equity := cfg.startingEquity + realizedPnl + unrealized - feesPaid - fundingPaid;
      s := Snapshot(unrealized, equity, equity - lockedProfit, tradableBase, lockedProfit, dailyLoss, |positions|,
                    overrideEnabled);
    }

    // ---------------------------------------------------------------- entries

    /** `_entry_margin_check`: marks the pair at the base price and tells whether the entry is refused. */
    method MarginCheck(d: Decision, quantity: real, price: real, leverage: real, base: real) returns (refused: bool)
      requires quantity > 0.0
      modifies this`marks
      ensures State() == WithMark(old(State()), d.signal.pair, Some(base))
      ensures refused == MarginRefused(cfg, State(), d, quantity, price, leverage)
    {
      var s := TakeSnapshot(map[d.signal.pair := base]);
      assert marks == old(marks)[d.signal.pair := base];
      refused := MarginFails(s.equity, cfg.MarginNotional(quantity, price), leverage,
                             if d.maxLoss.Some? then d.maxLoss.value else 0.0);
    }

    method Refused(s: Signal, market: Option<real>, reason: Reason, d: Option<Decision>) returns (r: Report)
      modifies this`marks
      ensures (State(), r) == Refuse(old(State()), s, market, reason, d)
    {
      if market.Some? {
        marks := marks[s.pair := market.value];
      }
      r := Report(false, reason, None, None, None, d);
    }

    /** The bookkeeping shared by every fill. */
    method Book(order: Order, fill: Fill, p: Option<Position>)
      modifies this`realizedPnl, this`feesPaid, this`positions, this`orders, this`fills, this`marks
      ensures State() == Post(old(State()), order, fill, p)
    {
      realizedPnl := realizedPnl + fill.realizedPnl;
      feesPaid := feesPaid + fill.fee;
      positions := if p.Some? then positions[fill.pair := p.value] else positions - {fill.pair};
      orders := orders + [order];
      fills := fills + [fill];
      marks := marks[fill.pair := fill.price];
    }

    /** Opening, or scaling into `existing`. */
    method EnterPosition(d: Decision, direction: Direction, existing: Option<Position>, base: real,
                         market: Option<real>, ts: int)
      returns (r: Report)
      requires Valid() && d.positionSize.Some? && d.positionSize.value > 0.0
      requires existing == (if d.signal.pair in positions then Some(positions[d.signal.pair]) else None)
      modifies this
      ensures (State(), r) == Enter(cfg, old(State()), d, direction, existing, base, market, ts)
    {
      var s, side, quantity := d.signal, EntrySide(d.signal.action), d.positionSize.value;
      var leverage := EntryLeverage(d, existing);
      var price := FillPrice(s.pair, side, quantity, base, cfg.slippagePct);
      var refused := MarginCheck(d, quantity, price, leverage, base);
      if refused {
        r := Refused(s, market, Invalid, Some(d));
        return;
      }
      var fee := cfg.Fee(cfg.MarginNotional(quantity, price), FeeTypeOf(s, cfg.entryFeeType));
      var order := Order(s.pair, side, s.action, quantity, price, leverage, ts);
      var fill := Fill(s.pair, side, quantity, price, fee, ts, 0.0);
      var p :=
        if existing.Some? then ScaledPosition(existing.value, d, quantity, price, leverage, fee, ts)
        else OpenedPosition(cfg, d, direction, quantity, price, leverage, fee, ts);
      Book(order, fill, Some(p));
      r := Report(true, if existing.Some? then ScaleInFilled
                  else EntryFilled, Some(order), Some(fill), Some(p), Some(d));
    }

    method OpenFromDecision(d: Decision, market: Option<real>, ts: int) returns (r: Report)
      requires Valid()
      modifies this
      ensures (State(), r) == Open(cfg, old(State()), d, market, ts)
    {
      var s, base := d.signal, OrElse(market, d.signal.entryPrice);
      if NotPositive(d.positionSize) || s.direction.None? {
        r := Refused(s, market, Invalid, Some(d));
      } else if s.pair in positions && !CanScaleIn(s, positions[s.pair]) {
        r := Refused(s, market, Invalid, Some(d));
      } else if NotPositive(base) {
        r := Refused(s, market, Invalid, Some(d));
      } else {
        var existing := if s.pair in positions then Some(positions[s.pair]) else None;
        r := EnterPosition(d, s.direction.value, existing, base.value, market, ts);
      }
    }

    // ---------------------------------------------------------------- exits

    /** The profit-locking ledger: profits are locked away, losses come out of the tradable base. */
    method RecordResult(net: real)
      modifies this`lockedProfit, this`tradableBase, this`dailyLoss
      ensures State() == LockResult(cfg, old(State()), net)
    {
      if net > 0.0 && cfg.profitLockEnabled {
        lockedProfit := lockedProfit + net * (cfg.autoLockPct / 100.0);
      } else if net < 0.0 {
        tradableBase := tradableBase + net;
        dailyLoss := dailyLoss + Abs(net);
      }
    }

    method LeavePosition(p: Position, s: Signal, closed: Position, kept: Option<Position>, base: real, ts: int,
                         reason: Reason, d: Option<Decision>) returns (r: Report)
      modifies this
      ensures (State(), r) == Leave(cfg, old(State()), p, s, closed, kept, base, ts, reason, d)
    {
      var price := FillPrice(p.pair, ExitSide(p.direction), closed.quantity, base, ExitSlippage(cfg, s));
      var gross, fee := closed.UnrealizedPnl(price), ExitFee(cfg, p, s, closed, kept, price);
      var order := Order(p.pair, ExitSide(p.direction), ExitAction(p.direction), closed.quantity, price, p.leverage,
                         ts);
      var fill := Fill(p.pair, ExitSide(p.direction), closed.quantity, price, fee, ts, gross);
      RecordResult(gross - fee - closed.EntryFees());
      Book(order, fill, kept);
      r := Report(true, reason, Some(order), Some(fill), Some(closed), d);
    }

    method CloseFromSignal(s: Signal, market: Option<real>, ts: int, d: Option<Decision>,
                           reason: Reason) returns (r: Report)
      modifies this
      ensures (State(), r) == Close(cfg, old(State()), s, market, ts, d, reason)
    {
      if CloseRefused(State(), s, market) {
        r := Refused(s, market, Invalid, d);
      } else {
        var p := positions[s.pair];
        r := LeavePosition(p, s, p, None, OrElse(market, s.entryPrice).value, ts, reason, d);
      }
    }

    method PartialCloseFromSignal(s: Signal, market: Option<real>, ts: int, d: Option<Decision>,
                                  reason: Reason) returns (r: Report)
      modifies this
      ensures (State(), r) == PartialClose(cfg, old(State()), s, market, ts, d, reason)
    {
      var share := ShareOf(State(), s);
      if PartialRefused(State(), s, market, share) {
        r := Refused(s, market, Invalid, d);
      } else {
        var p := positions[s.pair];
        r := LeavePosition(p, s, ClosedShare(p, share), Some(KeptShare(p, share, ts)),
                           OrElse(market, s.entryPrice).value, ts, reason, d);
      }
    }

    // ---------------------------------------------------------------- the public calls

    method ExecuteDecision(d: Decision, market: Option<real>, ts: int) returns (r: Report)
      requires Valid()
      modifies this
      ensures Valid() && (State(), r) == Execute(cfg, old(State()), d, market, ts)
    {
      ghost var m := ExecuteMoves(cfg, State(), d, market, ts);
      MoveKeepsFiled(cfg, State(), Execute(cfg, State(), d, market, ts).0, m);
      if !d.approved {
        r := Refused(d.signal, market, Reason.Refused, Some(d));
      } else if d.signal.action.IsEntry() {
        r := OpenFromDecision(d, market, ts);
      } else if d.signal.action.IsExit() {
        r := CloseFromSignal(d.signal, market, ts, Some(d), d.signal.reason);
      } else {
        r := Refused(d.signal, market, Invalid, Some(d));
      }
    }

    method StartDay(day: int)
      modifies this
      ensures State() == ResetDay(old(State()), day)
    {
      if lastResetDay != Some(day) {
        dailyLoss := 0.0;
        dailyBaseStart := tradableBase;
        overrideEnabled := false;
        lastResetDay := Some(day);
      }
    }

    method ProcessCandle(c: Candle) returns (r: Option<Report>)
      requires Valid()
      modifies this
      ensures Valid() && (State(), r) == OnCandle(cfg, old(State()), c)
    {
      ghost var m := OnCandleMoves(cfg, State(), c);
      MoveKeepsFiled(cfg, State(), OnCandle(cfg, State(), c).0, m);
      StartDay(Day(c.closeTime));
      r := None;
      if c.pair in positions {
        var p := positions[c.pair];
        var t := ExitTriggers.TriggerFor(p, c);
        if t.None? {
          positions := positions[p.pair := StopManagement.UpdateTrailingStop(cfg, p, c)];
        } else {
          var s := TriggerSignal(p, t.value);
          var report;
          if t.value.partialPct.Some? {
            report := PartialCloseFromSignal(s, Some(t.value.price), c.closeTime, None, t.value.reason);
          } else {
            report := CloseFromSignal(s, Some(t.value.price), c.closeTime, None, t.value.reason);
          }
          r := Some(report);
        }
      }
    }

    method UpdateDynamicAtrExits(c: Candle, atr: Option<real>, settings: StopManagement.ExitSettings,
                                 band: Option<TrailPolicies.Band>) returns (raised: bool)
      requires Valid()
      modifies this`positions
      ensures Valid() && raised == ManageExits(cfg, old(State()), c, atr, settings, band).Raises?
      ensures State() == if raised then old(State()) else ManageExits(cfg, old(State()), c, atr, settings, band).value
    {
      raised := false;
      if c.pair in positions {
        var p := positions[c.pair];
        var q := StopManagement.UpdateDynamicExits(cfg, p, c, atr, settings, band);
        if q.Raises? {
          raised := true;
        } else {
          ManageExitsQuiet(cfg, State(), c, atr, settings, band);
          MoveKeepsFiled(cfg, State(), ManageExits(cfg, State(), c, atr, settings, band).value, Quiet);
          positions := positions[p.pair := q.value];
        }
      }
    }

    /** The loop of `apply_funding`. */
    method FundingOwed(prices: map<string, real>, rate: real) returns (owed: real)
      ensures owed == FundingTotal(positions, prices, rate)
    {
      owed := 0.0;
      var rest := positions;
      while rest != map[]
        invariant rest.Keys <= positions.Keys && forall p :: p in rest ==> rest[p] == positions[p]
        invariant owed + FundingTotal(rest, prices, rate) == FundingTotal(positions, prices, rate)
        decreases |rest|
      {
        var p :| p in rest;
        FundingTakeOut(rest, prices, rate, p);
        owed := owed + FundingDue(rest[p], FundingPrice(rest[p], p, prices), rate);
        rest := rest - {p};
      }
      NothingDue(prices, rate);
    }

    method PayFunding(prices: map<string, real>, rate: real) returns (paid: real)
      modifies this`fundingPaid
      ensures State() == ApplyFunding(old(State()), prices, rate) && paid == fundingPaid - old(fundingPaid)
    {
      paid := 0.0;
      if rate != 0.0 {
        paid := FundingOwed(prices, rate);
        fundingPaid := fundingPaid + paid;
      }
    }

    method UpdateOrderbook(pair: string, bids: seq<Level>, asks: seq<Level>)
      modifies this`books
      ensures State() == UpdateBook(old(State()), pair, bids, asks)
    {
      var b := OrderBook.CleanBook(bids, asks);
      if b.bids != [] || b.asks != [] {
        books := books[pair := b];
      }
    }

    method LockProfitByHand(amount: real)
      modifies this`tradableBase, this`lockedProfit
      ensures State() == LockProfit(old(State()), amount)
    {
      if amount > 0.0 {
        var x := Min(amount, tradableBase);
        tradableBase := tradableBase - x;
        lockedProfit := lockedProfit + x;
      }
    }

    method UnlockProfitByHand(amount: real)
      modifies this`tradableBase, this`lockedProfit, this`unlockedProfit
      ensures State() == UnlockProfit(old(State()), amount)
    {
      if amount > 0.0 {
        var x := Min(amount, lockedProfit);
        lockedProfit := lockedProfit - x;
        tradableBase := tradableBase + x;
        unlockedProfit := unlockedProfit + x;
      }
    }
  }

  lemma MoveOver(base: map<string, real>, done: map<string, real>, rest: map<string, real>, p: string)
    requires p in rest && p !in done
    ensures (base + done)[p := rest[p]] == base + done[p := rest[p]]
    ensures done[p := rest[p]] + (rest - {p}) == done + rest
  {
  }

  lemma UnrealizedTakeOut(positions: map<string, Position>, marks: map<string, real>, p: string)
    requires p in positions
    ensures Unrealized(positions, marks) == Unrealized(positions - {p}, marks)
      + (if p in marks then positions[p].UnrealizedPnl(marks[p]) else 0.0)
  {
    SumDrop(MarkedPnls(positions, marks), p);
    assert MarkedPnls(positions, marks) - {p} == MarkedPnls(positions - {p}, marks);
  }

  lemma NothingUnrealized(marks: map<string, real>)
    ensures Unrealized(map[], marks) == 0.0
  {
    assert MarkedPnls(map[], marks) == map[];
  }

  lemma FundingTakeOut(positions: map<string, Position>, prices: map<string, real>, rate: real, p: string)
    requires p in positions
    ensures FundingTotal(positions, prices, rate) == FundingTotal(positions - {p}, prices, rate)
      + FundingDue(positions[p], FundingPrice(positions[p], p, prices), rate)
  {
    SumDrop(FundingDues(positions, prices, rate), p);
    assert FundingDues(positions, prices, rate) - {p} == FundingDues(positions - {p}, prices, rate);
  }

  lemma NothingDue(prices: map<string, real>, rate: real)
    ensures FundingTotal(map[], prices, rate) == 0.0
  {
    assert FundingDues(map[], prices, rate) == map[];
  }
}
