/** What a backtest fills its decisions at. */
module BacktestFills {
  import opened Common
  import opened Market
  import opened Ledger
  import opened LedgerMoves
  import opened LedgerRuns
  import opened BacktestTrace
  import opened BacktestBooks
  import opened FillRules
  import OrderBook

  /** A backtest is given no order books. */
  lemma {:induction false} NoBooks(cfg: BrokerConfig, journal: seq<Call>, a: Account, x: nat)
    requires Lived(cfg, journal, a) && x <= |journal|
    ensures AccountAt(cfg, journal, x).books == map[]
  {
    if x > 0 {
      NoBooks(cfg, journal, a, x - 1);
      assert LinkedAt(cfg, journal, x - 1);
      var c := journal[x - 1];
      assert c.after == Step(cfg, c.before, c.event);
      StepKeepsBooks(cfg, c.before, c.event);
    }
  }

  /** Without books an accepted decision is filled at its base price, moved against the trader by the slippage. */
  ghost predicate FilledAt(cfg: BrokerConfig, d: Decision, price: real, f: Fill)
  {
    && BaseOf(d.signal, Some(price)).Some? && f.pair == d.signal.pair
    && var base := BaseOf(d.signal, Some(price)).value;
    if d.signal.action.IsEntry() then
      f.side == (if d.signal.action.EnterLong? then Buy else Sell) && f.price == Moved(base, f.side, cfg.slippagePct)
    else
      f.side == (if d.signal.action.ExitLong? then Sell else Buy)
      && f.price == Moved(base, f.side, SlippageFor(cfg, d.signal))
  }

  lemma BooklessPrice(a: Account, pair: string, side: Side, quantity: real, base: real, pct: real)
    requires a.books == map[] && quantity > 0.0
    ensures OrderBook.FillPrice(BookOf(a, pair), side, quantity, base, pct) == Moved(base, side, pct)
  {
    FillPriceIs(a, pair, side, quantity, base, pct);
  }

  lemma CallFilledAt(cfg: BrokerConfig, c: Call, d: Decision, price: real, ts: int)
    requires cfg.Valid() && Genuine(cfg, c) && c.before.books == map[] && c.event == Decided(d, Some(price), ts)
    requires c.report.Some? && c.report.value.accepted
    ensures c.report.value.fill.Some? && FilledAt(cfg, d, price, c.report.value.fill.value)
  {
    assert c.report == Answer(cfg, c.before, c.event);
    if d.signal.action.IsEntry() {
      EntryFills(cfg, c.before, d, Some(price), ts);
      BooklessPrice(c.before, d.signal.pair, if d.signal.action.EnterLong? then Buy else Sell, d.positionSize.value,
                    BaseOf(d.signal, Some(price)).value, cfg.slippagePct);
    } else {
      ExitFilledAt(cfg, c.before, d, price, ts);
    }
  }

  lemma ExitFilledAt(cfg: BrokerConfig, a: Account, d: Decision, price: real, ts: int)
    requires Filed(cfg, a) && a.books == map[] && !d.signal.action.IsEntry()
    requires Execute(cfg, a, d, Some(price), ts).1.accepted
    ensures var f := Execute(cfg, a, d, Some(price), ts).1.fill; f.Some? && FilledAt(cfg, d, price, f.value)
  {
    var s := d.signal;
    CloseExactly(cfg, a, s, Some(price), ts, Some(d), s.reason);
    var p := a.positions[s.pair];
    BooklessPrice(a, s.pair, if p.direction.Long? then Sell else Buy, p.quantity, BaseOf(s, Some(price)).value,
                  SlippageFor(cfg, s));
  }

  /** An entry is filled so, too, and its decision says whether it buys or sells. */
  lemma EntryFilledAt(cfg: BrokerConfig, c: Call, d: Decision, price: real, ts: int)
    requires cfg.Valid() && Genuine(cfg, c) && c.before.books == map[] && c.event == Decided(d, Some(price), ts)
    requires c.report.Some? && EntersPosition(c.report.value)
    ensures d.signal.action.IsEntry() && c.report.value.order.value.action == d.signal.action
    ensures c.report.value.fill.Some? && FilledAt(cfg, d, price, c.report.value.fill.value)
  {
    assert c.report == Answer(cfg, c.before, c.event);
    var m := ExecuteMoves(cfg, c.before, d, Some(price), ts);
    CallFilledAt(cfg, c, d, price, ts);
  }

  /** A forced exit gives its reason, and is filled at the close moved against the trader. */
  lemma ForcedFill(cfg: BrokerConfig, a: Account, pair: string, c: Candle, reason: Reason)
    requires Filed(cfg, a) && pair in a.positions && a.books == map[] && c.close > 0.0
    ensures var p := a.positions[pair];
      var r := Execute(cfg, a, Forced(p, c, reason), Some(c.close), c.closeTime).1;
      && r.accepted && r.reason == reason && r.position == Some(p) && r.fill.Some? && r.fill.value.pair == pair
      && r.fill.value.quantity == p.quantity && r.fill.value.timestamp == c.closeTime
      && r.fill.value.price == Moved(c.close, if p.direction.Long? then Sell else Buy, cfg.slippagePct)
  {
    var p, d := a.positions[pair], Forced(a.positions[pair], c, reason);
    CloseExactly(cfg, a, d.signal, Some(c.close), c.closeTime, Some(d), reason);
    BooklessPrice(a, pair, if p.direction.Long? then Sell else Buy, p.quantity, c.close, cfg.slippagePct);
  }
}
