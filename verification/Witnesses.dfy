/** Concrete inputs on which a property fails that holds under the conditions proved elsewhere. */
module Witnesses {
  import opened Common
  import opened Market
  import opened Sums
  import opened Ledger
  import opened LedgerMoves
  import opened LedgerRuns
  import StopRuns
  import opened StopTheorems
  import opened StopManagement
  import opened TrailPolicies

  /** 1000 units of equity, no fees and no slippage. */
  const NoCosts := BrokerConfig(1000.0, 0.0, 0.0, 0.0, Maker, Taker, 0.0, None, false, 0.0, 0.0, 1.0, 1.0, false, 100.0)

  /** An approved decision to buy one unit at 100 that nevertheless names the short direction. */
  const Contradictory := Decision(true,
    Signal("s", "P", EnterLong, Some(Short), Some(100.0), None, None, Strategy(false), None, map[]),
    Some(1.0), Some(1.0), None, map[])

  /** A first entry without slippage, margin permitting, opens what it asks for at the price it names. */
  lemma FirstEntryAccepted(cfg: BrokerConfig, d: Decision, quantity: real, price: real, leverage: real)
    requires d.approved && d.signal.action.EnterLong? && d.signal.direction.Some? && cfg.slippagePct == 0.0
    requires d.positionSize == Some(quantity) && d.signal.entryPrice == Some(price) && quantity > 0.0 && price > 0.0
    requires d.leverage == Some(leverage) && leverage != 0.0 && d.maxLoss.None?
    requires !MarginFails(cfg.startingEquity, cfg.MarginNotional(quantity, price), leverage, 0.0)
    ensures var r, pair := Execute(cfg, Fresh(cfg), d, None, 0), d.signal.pair;
      && r.1.accepted && r.0.tradableBase == cfg.startingEquity && r.0.books == map[] && pair in r.0.positions
      && r.0.positions[pair].direction == d.signal.direction.value
      && r.0.positions[pair].quantity == quantity && r.0.positions[pair].entryPrice == price
  {
    var a := Fresh(cfg);
    var marked := WithMark(a, d.signal.pair, Some(price));
    assert MarkedPnls(marked.positions, marked.marks) == map[];
    assert EntryPrice(cfg, a, d, price) == price;
    assert Equity(cfg, marked) == cfg.startingEquity;
  }

  lemma ContradictoryIsAccepted() returns (cfg: BrokerConfig, d: Decision)
    ensures cfg.Valid() && d.signal.action.IsEntry() && !Aligned(d) && Execute(cfg, Fresh(cfg), d, None, 0).1.accepted
  {
    cfg, d := NoCosts, Contradictory;
    FirstEntryAccepted(cfg, d, 1.0, 100.0, 1.0);
  }

  lemma StartReconciled(cfg: BrokerConfig)
    ensures Reconciled(cfg, Fresh(cfg)) && Filed(cfg, Fresh(cfg))
  {
    assert Bases(cfg, map[]) == map[];
  }

  lemma MisalignedBreaks(cfg: BrokerConfig, d: Decision)
    requires cfg.Valid() && d.signal.action.IsEntry() && !Aligned(d)
    requires Execute(cfg, Fresh(cfg), d, None, 0).1.accepted
    ensures !Reconciled(cfg, Execute(cfg, Fresh(cfg), d, None, 0).0)
  {
    StartReconciled(cfg);
    AcceptedEntryReconciles(cfg, Fresh(cfg), d, None, 0);
  }

  /**
   * The broker does not compare action and direction: it buys, files a short, and the replay of the fills disagrees.
   */
  lemma ContradictoryEntryBreaksReplay() returns (cfg: BrokerConfig, d: Decision)
    ensures cfg.Valid() && Execute(cfg, Fresh(cfg), d, None, 0).1.accepted
    ensures Reconciled(cfg, Fresh(cfg)) && !Reconciled(cfg, Execute(cfg, Fresh(cfg), d, None, 0).0)
  {
    cfg, d := ContradictoryIsAccepted();
    StartReconciled(cfg);
    MisalignedBreaks(cfg, d);
  }

  /** Management switched off, but for a Bollinger trail that is not only observed. */
  const TrailOnly := ExitSettings(
    1.0, 1.0, None, false, false, false, FixedTarget, false, 1.0, 0.0, false, 1.0, 0.0,
    false, GivebackRule(1.0, 0.5, 0.0, 1.0, 0.5), false, 1.0,
    true, BbRule(0.0, 1.0, 2.0, 3.0, 10.0), false, 0.5, false)

  /** Short from 100 with a stop of exactly zero, its Bollinger trail already active. */
  const ZeroStopShort := Position(
    "P", Short, 1.0, 100.0, 1.0, 0, 0, "s", Some(0.0), None, 1.0, 1.0,
    map[BB_TRAIL_ACTIVE := Flag(true), BB_TRAIL_STOP := Null])

  /** A zero stop gives way to an active trail with wide bands, whatever the prices. */
  lemma TrailReplacesZero(cfg: BrokerConfig, p: Position, c: Candle, a: ExitSettings, band: Band)
    requires Priced(cfg, p, c) && p.direction.Short? && p.stopLoss == Some(0.0)
    requires forall k :: k == ATR_STOP_ENABLED || k == BB_TRAIL_ENABLED || k == BB_TRAIL_OBSERVE_ONLY ==>
      Get(p.metadata, k) == Null
    requires Get(p.metadata, BB_TRAIL_ACTIVE) == Flag(true) && Get(p.metadata, BB_TRAIL_STOP) == Null
    requires !a.stopEnabled && a.bbEnabled && !a.bbObserveOnly && band.upper - band.lower >= 0.5
    ensures Manage(cfg, p, c, 1.0, a, Some(band)).Ok?
    ensures !NoLooser(p.direction, p.stopLoss, Manage(cfg, p, c, 1.0, a, Some(band)).value.stopLoss)
  {
    var plan := PlanOf(cfg, p, c, 1.0, a);
    SwitchesHold(cfg, p, c, a);
    RaisesExactly(p, c, 1.0, plan, Some(band));
    assert BbActive(p, plan.f, band) && BbOffers(p, band, 1.0);
    ManageTightens(cfg, p, c, 1.0, a, Some(band));
  }

  lemma SwitchesHold(cfg: BrokerConfig, p: Position, c: Candle, a: ExitSettings)
    requires forall k :: k == ATR_STOP_ENABLED || k == BB_TRAIL_ENABLED || k == BB_TRAIL_OBSERVE_ONLY ==>
      Get(p.metadata, k) == Null
    requires !a.stopEnabled && a.bbEnabled && !a.bbObserveOnly
    ensures var f := PlanOf(cfg, p, c, 1.0, a).f; !f.s.stopEnabled && f.s.bbEnabled && !f.s.bbObserveOnly
  {
    assert Get(p.metadata, ATR_STOP_ENABLED) == Null && Get(p.metadata, BB_TRAIL_ENABLED) == Null;
    assert Get(p.metadata, BB_TRAIL_OBSERVE_ONLY) == Null;
  }

  /** A short from 100 at 90, its zero stop loosened by the trail around a band of 90 to 100. */
  lemma ZeroStopIsLoosened() returns (cfg: BrokerConfig, p: Position, c: Candle, a: ExitSettings, band: Option<Band>)
    ensures Priced(cfg, p, c) && p.direction.Short? && p.stopLoss == Some(0.0)
    ensures Manage(cfg, p, c, 1.0, a, band).Ok?
    ensures !NoLooser(p.direction, p.stopLoss, Manage(cfg, p, c, 1.0, a, band).value.stopLoss)
  {
    cfg, p, a, band := NoCosts, ZeroStopShort, TrailOnly, Some(Band(95.0, 100.0, 90.0));
    c := Candle("P", "1m", 0, 59_999, 90.0, 90.0, 90.0, 90.0, 1.0, 1.0, 1, true);
    assert Get(p.metadata, ENTRY_EFFECTIVE_FEE_RATE) == Null;
    TrailReplacesZero(cfg, p, c, a, band.value);
  }

  /** Buy 50 at 100 on fivefold leverage with an equity of 1000 ... */
  const LeveredEntry := Decision(true,
    Signal("s", "P", EnterLong, Some(Long), Some(100.0), None, None, Strategy(false), None, map[]),
    Some(50.0), Some(5.0), None, map[])

  /** ... and sell at 70. */
  const LosingExit := Decision(true,
    Signal("s", "P", ExitLong, Some(Long), Some(70.0), None, None, Strategy(false), None, map[]),
    None, None, None, map[])

  lemma LeveredEntryOpens(cfg: BrokerConfig, d: Decision)
    requires cfg.Valid() && cfg.slippagePct == 0.0 && cfg.startingEquity == 1000.0
      && cfg.MarginNotional(50.0, 100.0) == 5000.0
    requires d.approved && d.signal.action.EnterLong? && d.signal.direction == Some(Long) && d.signal.pair == "P"
    requires d.signal.entryPrice == Some(100.0) && d.positionSize == Some(50.0) && d.leverage == Some(5.0)
      && d.maxLoss.None?
    ensures var a := Execute(cfg, Fresh(cfg), d, None, 0).0;
      && Filed(cfg, a) && a.tradableBase == 1000.0 && a.books == map[] && "P" in a.positions
      && a.positions["P"].direction.Long? && a.positions["P"].quantity == 50.0 && a.positions["P"].entryPrice == 100.0
  {
    FirstEntryAccepted(cfg, d, 50.0, 100.0, 5.0);
    StartReconciled(cfg);
    StopRuns.DecisionFiled(cfg, Fresh(cfg), d, None, 0);
  }

  lemma LosingExitCloses(cfg: BrokerConfig, a: Account, d: Decision)
    requires cfg == NoCosts && d == LosingExit && Filed(cfg, a) && a.books == map[] && "P" in a.positions
    requires var p := a.positions["P"]; p.direction.Long? && p.quantity == 50.0 && p.entryPrice == 100.0
    ensures Execute(cfg, a, d, None, 1).0.tradableBase <= a.tradableBase - 1500.0
  {
    var p := a.positions["P"];
    assert Get(d.signal.metadata, EXIT_TRIGGER_TYPE) == Null;
    assert ExitPrice(cfg, a, p, 50.0, d.signal, 70.0) == 70.0;
    assert p.UnrealizedPnl(70.0) == -1500.0;
    FeeNonNegative(cfg, p.MarginNotional(70.0), Taker);
  }

  /** So a tradable base below zero is reached, on which a manual lock lowers the locked profit. */
  lemma NegativeBaseReached() returns (cfg: BrokerConfig, events: seq<Event>)
    ensures cfg.Valid() && Run(cfg, events).tradableBase < 0.0
    ensures LockProfit(Run(cfg, events), 1.0).lockedProfit < Run(cfg, events).lockedProfit
  {
    cfg := NoCosts;
    events := [Decided(LeveredEntry, None, 0), Decided(LosingExit, None, 1)];
    LeveredEntryOpens(cfg, LeveredEntry);
    LosingExitCloses(cfg, Execute(cfg, Fresh(cfg), LeveredEntry, None, 0).0, LosingExit);
    TwoCalls(cfg, events[0], events[1]);
    assert events == [events[0], events[1]];
  }

  lemma TwoCalls(cfg: BrokerConfig, first: Event, second: Event)
    requires cfg.Valid() && Filed(cfg, Step(cfg, Fresh(cfg), first))
    ensures Run(cfg, [first, second]) == Step(cfg, Step(cfg, Fresh(cfg), first), second)
  {
    assert [first, second][..1] == [first] && [first][..0] == [];
    assert RunFrom(cfg, Fresh(cfg), []) == Fresh(cfg);
    assert RunFrom(cfg, Fresh(cfg), [first]) == Step(cfg, Fresh(cfg), first);
  }
}
