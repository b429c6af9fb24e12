/** What funding comes to: a rate on the worth of the inventory the fills have left. */
module FundingLedger {
  import opened Common
  import opened Market
  import opened Sums
  import opened Ledger
  import opened LedgerMoves
  import opened LedgerRuns

  /** The price a pair's funding is charged at: the one given, else the entry price; none below zero. */
  function ChargedAt(p: Position, prices: map<string, real>): real
  {
    Max(if p.pair in prices then prices[p.pair] else p.entryPrice, 0.0)
  }

  ghost function ChargedPrices(a: Account, prices: map<string, real>): map<string, real>
  {
    map pair | pair in a.positions :: ChargedAt(a.positions[pair], prices)
  }

  /** At a positive rate a long pays on its worth and a short receives. */
  lemma PositionFunding(cfg: BrokerConfig, p: Position, price: real, rate: real)
    requires cfg.Valid() && p.quantity > 0.0 && p.rate == cfg.rate && p.unit == cfg.unit
    ensures FundingDue(p, price, rate) == Times(rate, Worth(cfg, p.direction.Sign() * p.quantity, Max(price, 0.0)))
  {
    var worth := Worth(cfg, p.quantity, price);
    if price > 0.0 {
      PositiveWorth(p.quantity, price, cfg.unit, cfg.rate);
      assert p.MarginNotional(price) == worth;
      WorthScales(cfg, p.quantity, price);
    }
  }

  lemma PositiveWorth(quantity: real, price: real, unit: real, rate: real)
    requires quantity > 0.0 && price > 0.0 && unit > 0.0 && rate > 0.0
    ensures quantity * price * unit * rate > 0.0
  {
    assert quantity * price > 0.0;
    assert quantity * price * unit > 0.0;
  }

  lemma {:induction false} SumScales<K(!new)>(scaled: map<K, real>, m: map<K, real>, x: real)
    requires scaled.Keys == m.Keys && forall k :: k in m ==> scaled[k] == Times(x, m[k])
    ensures Sum(scaled) == Times(x, Sum(m))
    decreases |m|
  {
    if m == map[] {
      assert scaled == map[];
    } else {
      var k :| k in m;
      SumTakeOut(m, k);
      SumTakeOut(scaled, k);
      SumScales(scaled - {k}, m - {k}, x);
      TimesSum(m[k], Sum(m - {k}), x);
    }
  }

  /** A pair's funding, in terms of its buys and sells. */
  lemma PairFunding(cfg: BrokerConfig, a: Account, pair: string, prices: map<string, real>, rate: real)
    requires cfg.Valid() && Filed(cfg, a) && Reconciled(cfg, a) && pair in a.positions
    ensures var p := a.positions[pair];
      FundingDue(p, FundingPrice(p, pair, prices), rate) ==
        Times(rate, Worth(cfg, Inventory(a.fills, pair), ChargedAt(p, prices)))
  {
    var p := a.positions[pair];
    assert Inventory(a.fills, pair) == Held(a.positions, pair);
    PositionFunding(cfg, p, FundingPrice(p, pair, prices), rate);
  }

  /**
   * One funding call costs the rate on the worth of the inventory the fills have left. A pair without a price is
   * charged at its entry price, and one at a price of zero or below is not charged.
   */
  lemma FundingIsWorth(cfg: BrokerConfig, a: Account, prices: map<string, real>, rate: real)
    requires cfg.Valid() && Filed(cfg, a) && Reconciled(cfg, a)
    ensures ApplyFunding(a, prices, rate) ==
      a.(fundingPaid := a.fundingPaid + Times(rate, InventoryWorth(cfg, a.fills, ChargedPrices(a, prices))))
  {
    TotalIsWorth(cfg, a, prices, rate);
    FreeOfRate(InventoryWorth(cfg, a.fills, ChargedPrices(a, prices)));
    FundingAdds(a, prices, rate, FundingTotal(a.positions, prices, rate));
  }

  lemma FreeOfRate(worth: real)
    ensures Times(0.0, worth) == 0.0
  {
  }

  lemma FundingAdds(a: Account, prices: map<string, real>, rate: real, total: real)
    requires total == FundingTotal(a.positions, prices, rate) && (rate == 0.0 ==> total == 0.0)
    ensures ApplyFunding(a, prices, rate) == a.(fundingPaid := a.fundingPaid + total)
  {
  }

  lemma TotalIsWorth(cfg: BrokerConfig, a: Account, prices: map<string, real>, rate: real)
    requires cfg.Valid() && Filed(cfg, a) && Reconciled(cfg, a)
    ensures FundingTotal(a.positions, prices, rate) ==
      Times(rate, InventoryWorth(cfg, a.fills, ChargedPrices(a, prices)))
  {
    var dues, worths := FundingDues(a.positions, prices, rate),
      InventoryWorths(cfg, a.fills, ChargedPrices(a, prices));
    OpenPairsArePositions(cfg, a);
    forall pair | pair in a.positions ensures dues[pair] == Times(rate, worths[pair]) {
      PairFunding(cfg, a, pair, prices, rate);
      assert At(ChargedPrices(a, prices), pair) == ChargedAt(a.positions[pair], prices);
    }
    SumScales(dues, worths, rate);
  }

  /** With a positive price for every open pair those are the prices charged. */
  lemma FundingAtPrices(cfg: BrokerConfig, a: Account, prices: map<string, real>, rate: real)
    requires cfg.Valid() && Filed(cfg, a) && Reconciled(cfg, a)
    requires forall pair :: pair in OpenPairs(a.fills) ==> pair in prices && prices[pair] > 0.0
    ensures ApplyFunding(a, prices, rate).fundingPaid ==
      a.fundingPaid + Times(rate, InventoryWorth(cfg, a.fills, prices))
  {
    FundingIsWorth(cfg, a, prices, rate);
    OpenPairsArePositions(cfg, a);
    assert InventoryWorths(cfg, a.fills, ChargedPrices(a, prices)) == InventoryWorths(cfg, a.fills, prices);
  }

  // ------------------------------------------------------------------ over a run

  /** What a call costs in funding. */
  ghost function FundingOf(cfg: BrokerConfig, a: Account, e: Event): real
  {
    if e.FundingPaid? then Times(e.rate, InventoryWorth(cfg, a.fills, ChargedPrices(a, e.prices))) else 0.0
  }

  ghost function FundingOver(cfg: BrokerConfig, events: seq<Event>): real
    requires cfg.Valid()
  {
    if events == [] then 0.0
    else
      var init := events[..|events| - 1];
      FundingOver(cfg, init) + FundingOf(cfg, Run(cfg, init), events[|events| - 1])
  }

  lemma StepFunding(cfg: BrokerConfig, a: Account, e: Event)
    requires cfg.Valid() && Filed(cfg, a) && Reconciled(cfg, a)
    ensures Step(cfg, a, e).fundingPaid == a.fundingPaid + FundingOf(cfg, a, e)
  {
    if e.FundingPaid? {
      FundingIsWorth(cfg, a, e.prices, e.rate);
    } else {
      OthersPayNothing(cfg, a, e);
    }
  }

  lemma OthersPayNothing(cfg: BrokerConfig, a: Account, e: Event)
    requires cfg.Valid() && Filed(cfg, a) && !e.FundingPaid?
    ensures Step(cfg, a, e).fundingPaid == a.fundingPaid
  {
    if e.CandleClosed? { var m := OnCandleMoves(cfg, a, e.candle); }
    if e.Decided? { DecisionPaysNothing(cfg, a, e.d, e.market, e.ts); }
  }

  lemma DecisionPaysNothing(cfg: BrokerConfig, a: Account, d: Decision, market: Option<real>, ts: int)
    requires cfg.Valid() && Filed(cfg, a)
    ensures Execute(cfg, a, d, market, ts).0.fundingPaid == a.fundingPaid
  {
    var m := ExecuteMoves(cfg, a, d, market, ts);
  }

  /** The funding paid over a run whose accepted entries are aligned is a replay of the fills at every funding call. */
  lemma {:induction false} FundingIsReplayed(cfg: BrokerConfig, events: seq<Event>)
    requires cfg.Valid() && AllAligned(cfg, events)
    ensures Run(cfg, events).fundingPaid == FundingOver(cfg, events)
  {
    if events != [] {
      var init := events[..|events| - 1];
      FundingIsReplayed(cfg, init);
      RunReconciled(cfg, init);
      StepFunding(cfg, Run(cfg, init), events[|events| - 1]);
    }
  }
}
