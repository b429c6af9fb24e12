/** Runs of the broker, and what holds of the account after every one of them. */
module LedgerRuns {
  import opened Common
  import opened Market
  import opened Sums
  import opened Ledger
  import opened LedgerMoves
  import OrderBook
  import ExitTriggers
  import StopManagement
  import TrailPolicies

  /** One call into the broker. */
  datatype Event =
    | Decided(d: Decision, market: Option<real>, ts: int)
    | CandleClosed(candle: Candle)
    | ExitsManaged(candle: Candle, atr: Option<real>, settings: StopManagement.ExitSettings,
                   band: Option<TrailPolicies.Band>)
    | FundingPaid(prices: map<string, real>, rate: real)
    | Marked(prices: map<string, real>)
    | BookReceived(pair: string, bids: seq<Level>, asks: seq<Level>)
    | ProfitLocked(amount: real)
    | ProfitUnlocked(amount: real)

  ghost function Step(cfg: BrokerConfig, a: Account, e: Event): Account
    requires Filed(cfg, a)
  {
    match e
    case Decided(d, market, ts) => Execute(cfg, a, d, market, ts).0
    case CandleClosed(c) => OnCandle(cfg, a, c).0
    case ExitsManaged(c, atr, settings, band) =>
      (var b := ManageExits(cfg, a, c, atr, settings, band); if b.Ok? then b.value else a)
    case FundingPaid(prices, rate) => ApplyFunding(a, prices, rate)
    case Marked(prices) => a.(marks := a.marks + prices)
    case BookReceived(pair, bids, asks) => UpdateBook(a, pair, bids, asks)
    case ProfitLocked(x) => LockProfit(a, x)
    case ProfitUnlocked(x) => UnlockProfit(a, x)
  }

  lemma ManagedStepQuiet(cfg: BrokerConfig, a: Account, c: Candle, atr: Option<real>,
                         settings: StopManagement.ExitSettings, band: Option<TrailPolicies.Band>)
    requires Filed(cfg, a)
    ensures QuietMove(a, Step(cfg, a, ExitsManaged(c, atr, settings, band)))
  {
    SameHoldingsRefl(a.positions);
    if ManageExits(cfg, a, c, atr, settings, band).Ok? { ManageExitsQuiet(cfg, a, c, atr, settings, band); }
  }

  lemma QuietStep(cfg: BrokerConfig, a: Account, e: Event)
    requires Filed(cfg, a) && (e.FundingPaid? || e.Marked? || e.BookReceived?)
    ensures QuietMove(a, Step(cfg, a, e))
  {
    SameHoldingsRefl(a.positions);
  }

  lemma ManualStep(cfg: BrokerConfig, a: Account, e: Event)
    requires Filed(cfg, a) && (e.ProfitLocked? || e.ProfitUnlocked?)
    ensures Moves(cfg, a, Step(cfg, a, e), Manual)
  {
    SameHoldingsRefl(a.positions);
  }

  /** Every call is one of the moves, entering only on an approved entry decision. */
  lemma StepMoves(cfg: BrokerConfig, a: Account, e: Event) returns (m: Move)
    requires cfg.Valid() && Filed(cfg, a)
    ensures Moves(cfg, a, Step(cfg, a, e), m)
    ensures m.Entry? ==>
      e.Decided? && e.d.approved && e.d.signal.action == m.order.action && e.d.signal.pair == m.fill.pair
      && e.d.signal.direction == Some(m.after.direction)
    ensures m.Manual? <==> e.ProfitLocked? || e.ProfitUnlocked?
    ensures !e.Decided? && !e.CandleClosed? ==> m.Quiet? || m.Manual?
  {
    match e
    case Decided(d, market, ts) => m := ExecuteMoves(cfg, a, d, market, ts);
    case CandleClosed(c) => m := OnCandleMoves(cfg, a, c);
    case ExitsManaged(c, atr, settings, band) =>
      m := Quiet;
      ManagedStepQuiet(cfg, a, c, atr, settings, band);
    case FundingPaid(_, _) => m := Quiet; QuietStep(cfg, a, e);
    case Marked(_) => m := Quiet; QuietStep(cfg, a, e);
    case BookReceived(_, _, _) => m := Quiet; QuietStep(cfg, a, e);
    case ProfitLocked(_) => m := Manual; ManualStep(cfg, a, e);
    case ProfitUnlocked(_) => m := Manual; ManualStep(cfg, a, e);
  }

  lemma StepFiled(cfg: BrokerConfig, a: Account, e: Event)
    requires cfg.Valid() && Filed(cfg, a)
    ensures Filed(cfg, Step(cfg, a, e))
  {
    var m := StepMoves(cfg, a, e);
    MoveKeepsFiled(cfg, a, Step(cfg, a, e), m);
  }

  /** The account after a run of calls from a given state. */
  ghost function RunFrom(cfg: BrokerConfig, start: Account, events: seq<Event>): (a: Account)
    requires cfg.Valid() && Filed(cfg, start)
    ensures Filed(cfg, a)
  {
    if events == [] then start
    else
      var b := RunFrom(cfg, start, events[..|events| - 1]);
      var e := events[|events| - 1];
      StepFiled(cfg, b, e);
      Step(cfg, b, e)
  }

  ghost function Run(cfg: BrokerConfig, events: seq<Event>): (a: Account)
    requires cfg.Valid()
    ensures Filed(cfg, a)
  {
    RunFrom(cfg, Fresh(cfg), events)
  }

  // ------------------------------------------------------------------ a naive replay of the fills

  function Signed(f: Fill): real { if f.side.Buy? then f.quantity else -f.quantity }

  /** Buys minus sells of one pair. */
  function Inventory(fills: seq<Fill>, pair: string): real
  {
    if fills == [] then 0.0
    else
      var f := fills[|fills| - 1];
      Inventory(fills[..|fills| - 1], pair) + (if f.pair == pair then Signed(f) else 0.0)
  }

  /** What `quantity` units are worth in margin currency. */
  function Worth(cfg: BrokerConfig, quantity: real, price: real): real { quantity * price * cfg.unit * cfg.rate }

  /** Money received for sells minus money spent on buys. */
  function Cash(cfg: BrokerConfig, fills: seq<Fill>): real
  {
    if fills == [] then 0.0
    else Cash(cfg, fills[..|fills| - 1]) - Worth(cfg, Signed(fills[|fills| - 1]), fills[|fills| - 1].price)
  }

  function Fees(fills: seq<Fill>): real
  {
    if fills == [] then 0.0 else Fees(fills[..|fills| - 1]) + fills[|fills| - 1].fee
  }

  function Realized(fills: seq<Fill>): real
  {
    if fills == [] then 0.0 else Realized(fills[..|fills| - 1]) + fills[|fills| - 1].realizedPnl
  }

  /** Pairs with a non-zero inventory. */
  ghost function OpenPairs(fills: seq<Fill>): set<string>
  {
    set f | f in fills && Inventory(fills, f.pair) != 0.0 :: f.pair
  }

  ghost function InventoryWorths(cfg: BrokerConfig, fills: seq<Fill>, prices: map<string, real>): map<string, real>
  {
    map p | p in OpenPairs(fills) :: Worth(cfg, Inventory(fills, p), At(prices, p))
  }

  /** Value of the inventory at given prices. */
  ghost function InventoryWorth(cfg: BrokerConfig, fills: seq<Fill>, prices: map<string, real>): real
  {
    Sum(InventoryWorths(cfg, fills, prices))
  }

  lemma {:induction false} InventoryNeedsFill(fills: seq<Fill>, pair: string)
    requires Inventory(fills, pair) != 0.0
    ensures exists f :: f in fills && f.pair == pair
  {
    var last := fills[|fills| - 1];
    if last.pair == pair {
      assert last in fills;
    } else {
      InventoryNeedsFill(fills[..|fills| - 1], pair);
    }
  }

  // ------------------------------------------------------------------ the ledger agrees with the replay

  /** +quantity for a long, -quantity for a short, 0 without a position. */
  function Held(positions: map<string, Position>, pair: string): real
  {
    if pair in positions then positions[pair].direction.Sign() * positions[pair].quantity else 0.0
  }

  function CostBasis(cfg: BrokerConfig, p: Position): real { Worth(cfg, p.direction.Sign() * p.quantity, p.entryPrice) }

  ghost function Bases(cfg: BrokerConfig, positions: map<string, Position>): map<string, real>
  {
    map p | p in positions :: CostBasis(cfg, positions[p])
  }

  ghost predicate Reconciled(cfg: BrokerConfig, a: Account)
  {
    && a.realizedPnl == Realized(a.fills) && a.feesPaid == Fees(a.fills)
    && a.realizedPnl == Cash(cfg, a.fills) + Sum(Bases(cfg, a.positions))
    && a.positions.Keys <= a.marks.Keys
    && forall pair :: Inventory(a.fills, pair) == Held(a.positions, pair)
  }

  /** The entry action buys for a long and sells for a short, as the risk manager's entry validation demands. */
  ghost predicate Aligned(d: Decision)
  {
    d.approved ==>
      (d.signal.action.EnterLong? ==> d.signal.direction != Some(Short))
      && (d.signal.action.EnterShort? ==> d.signal.direction != Some(Long))
  }

  lemma WorthScales(cfg: BrokerConfig, q: real, price: real)
    ensures Worth(cfg, q, price) == Times(Times(q, price), cfg.unit * cfg.rate)
    ensures Worth(cfg, -q, price) == -Worth(cfg, q, price)
  {
  }

  lemma ListsSnoc(cfg: BrokerConfig, fills: seq<Fill>, f: Fill)
    ensures Realized(fills + [f]) == Realized(fills) + f.realizedPnl
    ensures Fees(fills + [f]) == Fees(fills) + f.fee
    ensures Cash(cfg, fills + [f]) == Cash(cfg, fills) - Worth(cfg, Signed(f), f.price)
    ensures forall pair ::
      Inventory(fills + [f], pair) == Inventory(fills, pair) + (if f.pair == pair then Signed(f) else 0.0)
  {
    assert (fills + [f])[..|fills|] == fills;
  }

  /** Replacing (or dropping) one position changes the summed basis by that position's basis. */
  lemma BasisChanges(cfg: BrokerConfig, positions: map<string, Position>, pair: string, after: Option<Position>)
    ensures var next := if after.Some? then positions[pair := after.value] else positions - {pair};
      Sum(Bases(cfg, next)) == Sum(Bases(cfg, positions))
        - (if pair in positions then CostBasis(cfg, positions[pair]) else 0.0)
        + (if after.Some? then CostBasis(cfg, after.value) else 0.0)
  {
    var m := Bases(cfg, positions);
    if after.Some? {
      SumSet(m, pair, CostBasis(cfg, after.value));
      assert Bases(cfg, positions[pair := after.value]) == m[pair := CostBasis(cfg, after.value)];
    } else {
      SumDrop(m, pair);
      assert Bases(cfg, positions - {pair}) == m - {pair};
    }
  }

  lemma QuietReconciles(cfg: BrokerConfig, a: Account, b: Account)
    requires Reconciled(cfg, a) && Unfilled(a, b)
    ensures Reconciled(cfg, b)
  {
    forall p | p in a.positions ensures CostBasis(cfg, b.positions[p]) == CostBasis(cfg, a.positions[p]) {
      assert SameHolding(a.positions[p], b.positions[p]);
    }
    assert Bases(cfg, b.positions) == Bases(cfg, a.positions);
    forall pair ensures Held(b.positions, pair) == Held(a.positions, pair) {
      if pair in a.positions { assert SameHolding(a.positions[pair], b.positions[pair]); }
    }
  }

  /** A fill keeps the books reconciled when it moves holding and basis together. */
  lemma FillReconciles(cfg: BrokerConfig, a: Account, b: Account, order: Order, f: Fill, after: Option<Position>)
    requires Reconciled(cfg, a) && LedgerMoves.Written(a, b, order, f)
    requires b.positions == (if after.Some? then a.positions[f.pair := after.value] else a.positions - {f.pair})
    requires Held(b.positions, f.pair) == Held(a.positions, f.pair) + Signed(f)
    requires f.realizedPnl == -Worth(cfg, Signed(f), f.price)
      - (if f.pair in a.positions then CostBasis(cfg, a.positions[f.pair]) else 0.0)
      + (if after.Some? then CostBasis(cfg, after.value) else 0.0)
    ensures Reconciled(cfg, b)
  {
    ListsSnoc(cfg, a.fills, f);
    BasisChanges(cfg, a.positions, f.pair, after);
    forall pair ensures Inventory(b.fills, pair) == Held(b.positions, pair) {
      assert Inventory(a.fills, pair) == Held(a.positions, pair);
    }
  }

  lemma EntryBasis(cfg: BrokerConfig, sign: real, q0: real, e0: real, q: real, price: real, q1: real, e1: real)
    requires q1 * e1 == q0 * e0 + q * price
    ensures Worth(cfg, sign * q1, e1) == Worth(cfg, sign * q0, e0) + Worth(cfg, sign * q, price)
  {
    var k := cfg.unit * cfg.rate;
    var s := Times(sign, k);
    assert Worth(cfg, sign * q1, e1) == Times(q1 * e1, s);
    assert Worth(cfg, sign * q0, e0) == Times(q0 * e0, s);
    assert Worth(cfg, sign * q, price) == Times(q * price, s);
    TimesSum(q0 * e0, q * price, s);
  }

  lemma AlignedEntryReconciles(cfg: BrokerConfig, a: Account, b: Account, order: Order, f: Fill, after: Position)
    requires Reconciled(cfg, a) && EntryMove(cfg, a, b, order, f, after)
    requires order.action.EnterLong? <==> after.direction.Long?
    ensures Reconciled(cfg, b)
  {
    var sign := after.direction.Sign();
    assert Signed(f) == sign * f.quantity;
    if f.pair in a.positions {
      var p := a.positions[f.pair];
      EntryBasis(cfg, sign, p.quantity, p.entryPrice, f.quantity, f.price, after.quantity, after.entryPrice);
    }
    FillReconciles(cfg, a, b, order, f, Some(after));
  }

  lemma MisalignedEntryBreaks(cfg: BrokerConfig, a: Account, b: Account, order: Order, f: Fill, after: Position)
    requires Reconciled(cfg, a) && EntryMove(cfg, a, b, order, f, after)
    requires order.action.EnterLong? <==> after.direction.Short?
    ensures Inventory(b.fills, f.pair) != Held(b.positions, f.pair)
  {
    ListsSnoc(cfg, a.fills, f);
    assert Inventory(a.fills, f.pair) == Held(a.positions, f.pair);
  }

  /** Entering keeps the books reconciled exactly when the signal buys for a long and sells for a short. */
  lemma EntryReconciles(cfg: BrokerConfig, a: Account, b: Account, order: Order, f: Fill, after: Position)
    requires Reconciled(cfg, a) && EntryMove(cfg, a, b, order, f, after)
    ensures Reconciled(cfg, b) <==> (order.action.EnterLong? <==> after.direction.Long?)
  {
    if order.action.EnterLong? <==> after.direction.Long? {
      AlignedEntryReconciles(cfg, a, b, order, f, after);
    } else {
      MisalignedEntryBreaks(cfg, a, b, order, f, after);
    }
  }

  lemma ExitBasis(cfg: BrokerConfig, sign: real, q: real, price: real, entry: real, q0: real)
    ensures Worth(cfg, sign * (q0 - q), entry) == Worth(cfg, sign * q0, entry) - Worth(cfg, sign * q, entry)
    ensures Worth(cfg, sign * q, price) - Worth(cfg, sign * q, entry)
      == sign * (q * (price - entry) * cfg.unit * cfg.rate)
  {
    EntryBasis(cfg, sign, q0 - q, entry, q, entry, q0, entry);
    var s := Times(sign, cfg.unit * cfg.rate);
    assert Worth(cfg, sign * q, price) == Times(q * price, s);
    assert Worth(cfg, sign * q, entry) == Times(q * entry, s);
    TimesSum(q * price, -(q * entry), s);
    assert q * (price - entry) == q * price - q * entry;
    assert sign * (q * (price - entry) * cfg.unit * cfg.rate) == Times(q * (price - entry), s);
  }

  /** What an exit realises is what it takes out of the basis and brings in as cash. */
  lemma SplitBasis(cfg: BrokerConfig, p: Position, closed: Position, kept: Option<Position>, price: real)
    requires Splits(p, closed, kept) && p.rate == cfg.rate && p.unit == cfg.unit
    ensures closed.UnrealizedPnl(price) == Worth(cfg, p.direction.Sign() * closed.quantity, price) - CostBasis(cfg, p)
      + (if kept.Some? then CostBasis(cfg, kept.value) else 0.0)
  {
    var sign := p.direction.Sign();
    ExitBasis(cfg, sign, closed.quantity, price, p.entryPrice, p.quantity);
    assert closed.UnrealizedPnl(price) == sign * (closed.quantity * (price - p.entryPrice) * cfg.unit * cfg.rate);
    if kept.None? { assert Worth(cfg, sign * (p.quantity - closed.quantity), p.entryPrice) == 0.0; }
  }

  lemma SplitHeld(cfg: BrokerConfig, a: Account, b: Account, f: Fill, closed: Position, kept: Option<Position>)
    requires f.pair in a.positions && Splits(a.positions[f.pair], closed, kept)
    requires f.quantity == closed.quantity && f.side == ExitSide(a.positions[f.pair].direction)
    requires b.positions == (if kept.None? then a.positions - {f.pair} else a.positions[f.pair := kept.value])
    ensures Signed(f) == -(a.positions[f.pair].direction.Sign() * closed.quantity)
    ensures Held(b.positions, f.pair) == Held(a.positions, f.pair) + Signed(f)
  {
  }

  lemma ExitReconciles(cfg: BrokerConfig, a: Account, b: Account, order: Order, f: Fill, closed: Position,
                       kept: Option<Position>)
    requires Filed(cfg, a) && Reconciled(cfg, a) && ExitMove(cfg, a, b, order, f, closed, kept)
    ensures Reconciled(cfg, b)
  {
    var p := a.positions[f.pair];
    SplitBasis(cfg, p, closed, kept, f.price);
    SplitHeld(cfg, a, b, f, closed, kept);
    WorthScales(cfg, p.direction.Sign() * closed.quantity, f.price);
    FillReconciles(cfg, a, b, order, f, kept);
  }

  /** An accepted entry decision leaves a reconciled account reconciled exactly when it is aligned. */
  lemma AcceptedEntryReconciles(cfg: BrokerConfig, a: Account, d: Decision, market: Option<real>, ts: int)
    requires cfg.Valid() && Filed(cfg, a) && Reconciled(cfg, a)
    requires d.signal.action.IsEntry() && Execute(cfg, a, d, market, ts).1.accepted
    ensures Reconciled(cfg, Execute(cfg, a, d, market, ts).0) <==> Aligned(d)
  {
    var m := ExecuteMoves(cfg, a, d, market, ts);
    DecidedEntryReconciles(cfg, a, Execute(cfg, a, d, market, ts).0, m, d);
  }

  lemma DecidedEntryReconciles(cfg: BrokerConfig, a: Account, b: Account, m: Move, d: Decision)
    requires Reconciled(cfg, a) && m.Entry? && Moves(cfg, a, b, m)
    requires d.approved && d.signal.action == m.order.action && d.signal.direction == Some(m.after.direction)
    ensures Reconciled(cfg, b) <==> Aligned(d)
  {
    EntryReconciles(cfg, a, b, m.order, m.fill, m.after);
  }

  /** The call is not an entry decision that the broker accepts, or it buys for a long and sells for a short. */
  ghost predicate EntersAligned(cfg: BrokerConfig, a: Account, e: Event)
    requires Filed(cfg, a)
  {
    e.Decided? && e.d.signal.action.IsEntry() && Execute(cfg, a, e.d, e.market, e.ts).1.accepted ==> Aligned(e.d)
  }

  /** Every entry the broker accepts in the run does so; refused entries are allowed to contradict themselves. */
  ghost predicate AllAligned(cfg: BrokerConfig, events: seq<Event>)
    requires cfg.Valid()
  {
    events != [] ==>
      var init := events[..|events| - 1];
      AllAligned(cfg, init) && EntersAligned(cfg, Run(cfg, init), events[|events| - 1])
  }

  ghost predicate ReconciledAfter(cfg: BrokerConfig, events: seq<Event>, n: nat)
    requires cfg.Valid() && n <= |events|
  {
    Reconciled(cfg, Run(cfg, events[..n]))
  }

  /** The ledger is the replay of its fills before the run and after each of its calls. */
  ghost predicate AlwaysReconciled(cfg: BrokerConfig, events: seq<Event>)
    requires cfg.Valid()
  {
    forall n: nat :: n <= |events| ==> ReconciledAfter(cfg, events, n)
  }

  lemma FreshReconciled(cfg: BrokerConfig)
    ensures Reconciled(cfg, Fresh(cfg))
  {
    assert Bases(cfg, map[]) == map[];
  }

  lemma RunSnoc(cfg: BrokerConfig, init: seq<Event>, e: Event)
    requires cfg.Valid()
    ensures Run(cfg, init + [e]) == Step(cfg, Run(cfg, init), e)
  {
    assert (init + [e])[..|init|] == init;
  }

  /** One call keeps a reconciled ledger reconciled if and only if it is not a contradictory entry that is accepted. */
  lemma StepReconciles(cfg: BrokerConfig, a: Account, e: Event)
    requires cfg.Valid() && Filed(cfg, a) && Reconciled(cfg, a)
    ensures Reconciled(cfg, Step(cfg, a, e)) <==> EntersAligned(cfg, a, e)
  {
    if e.Decided? && e.d.signal.action.IsEntry() && Execute(cfg, a, e.d, e.market, e.ts).1.accepted {
      AcceptedEntryReconciles(cfg, a, e.d, e.market, e.ts);
    } else {
      UnenteredReconciles(cfg, a, e);
    }
  }

  lemma UnenteredReconciles(cfg: BrokerConfig, a: Account, e: Event)
    requires cfg.Valid() && Filed(cfg, a) && Reconciled(cfg, a)
    requires !(e.Decided? && e.d.signal.action.IsEntry() && Execute(cfg, a, e.d, e.market, e.ts).1.accepted)
    ensures Reconciled(cfg, Step(cfg, a, e))
  {
    var b := Step(cfg, a, e);
    if e.Decided? {
      var m := ExecuteMoves(cfg, a, e.d, e.market, e.ts);
      if m.Quiet? {
        QuietReconciles(cfg, a, b);
      } else {
        ExitReconciles(cfg, a, b, m.order, m.fill, m.closed, m.kept);
      }
    } else {
      var m := StepMoves(cfg, a, e);
      if m.Exit? {
        ExitReconciles(cfg, a, b, m.order, m.fill, m.closed, m.kept);
      } else {
        QuietReconciles(cfg, a, b);
      }
    }
  }

  /** After any run whose accepted entries are aligned the ledger is the replay of its fills. */
  lemma {:induction false} RunReconciled(cfg: BrokerConfig, events: seq<Event>)
    requires cfg.Valid() && AllAligned(cfg, events)
    ensures Reconciled(cfg, Run(cfg, events))
  {
    if events == [] {
      FreshReconciled(cfg);
    } else {
      var init := events[..|events| - 1];
      RunReconciled(cfg, init);
      StepReconciles(cfg, Run(cfg, init), events[|events| - 1]);
    }
  }

  lemma {:induction false} AlignedPrefix(cfg: BrokerConfig, events: seq<Event>, n: nat)
    requires cfg.Valid() && AllAligned(cfg, events) && n <= |events|
    ensures AllAligned(cfg, events[..n])
  {
    if n < |events| {
      assert events[..|events| - 1][..n] == events[..n];
      AlignedPrefix(cfg, events[..|events| - 1], n);
    } else {
      assert events[..n] == events;
    }
  }

  lemma ReconciledPrefix(cfg: BrokerConfig, events: seq<Event>, last: nat)
    requires cfg.Valid() && AlwaysReconciled(cfg, events) && last <= |events|
    ensures AlwaysReconciled(cfg, events[..last])
  {
    forall n: nat | n <= last ensures ReconciledAfter(cfg, events[..last], n) {
      assert ReconciledAfter(cfg, events, n) && events[..last][..n] == events[..n];
    }
  }

  lemma {:induction false} ReconciledIsAligned(cfg: BrokerConfig, events: seq<Event>)
    requires cfg.Valid() && AlwaysReconciled(cfg, events)
    ensures AllAligned(cfg, events)
  {
    if events != [] {
      var last := |events| - 1;
      var init := events[..last];
      ReconciledPrefix(cfg, events, last);
      ReconciledIsAligned(cfg, init);
      assert ReconciledAfter(cfg, events, last) && ReconciledAfter(cfg, events, |events|);
      assert events[..|events|] == events == init + [events[last]];
      RunSnoc(cfg, init, events[last]);
      StepReconciles(cfg, Run(cfg, init), events[last]);
    }
  }

  /**
   * The exact condition, over every run: the ledger is the replay of its fills after every
   * call if and only if every entry the broker accepts buys for a long and sells for a short.
   */
  lemma AlwaysReconciledExactly(cfg: BrokerConfig, events: seq<Event>)
    requires cfg.Valid()
    ensures AlwaysReconciled(cfg, events) <==> AllAligned(cfg, events)
  {
    if AllAligned(cfg, events) {
      forall n: nat | n <= |events| ensures ReconciledAfter(cfg, events, n) {
        AlignedPrefix(cfg, events, n);
        RunReconciled(cfg, events[..n]);
      }
    }
    if AlwaysReconciled(cfg, events) {
      ReconciledIsAligned(cfg, events);
    }
  }

  // ------------------------------------------------------------------ valuation from the fills alone

  lemma OpenPairsArePositions(cfg: BrokerConfig, a: Account)
    requires Filed(cfg, a) && Reconciled(cfg, a)
    ensures OpenPairs(a.fills) == a.positions.Keys
  {
    forall pair ensures pair in OpenPairs(a.fills) <==> pair in a.positions {
      assert Inventory(a.fills, pair) == Held(a.positions, pair);
      if pair in a.positions {
        assert Held(a.positions, pair) != 0.0;
        InventoryNeedsFill(a.fills, pair);
      }
    }
  }

  lemma PnlIsWorth(cfg: BrokerConfig, p: Position, price: real)
    requires p.rate == cfg.rate && p.unit == cfg.unit
    ensures Worth(cfg, p.direction.Sign() * p.quantity, price) == p.UnrealizedPnl(price) + CostBasis(cfg, p)
  {
    SplitBasisWhole(cfg, p, price);
  }

  lemma SplitBasisWhole(cfg: BrokerConfig, p: Position, price: real)
    requires p.rate == cfg.rate && p.unit == cfg.unit
    ensures p.UnrealizedPnl(price) == Worth(cfg, p.direction.Sign() * p.quantity, price) - CostBasis(cfg, p)
  {
    var sign := p.direction.Sign();
    ExitBasis(cfg, sign, p.quantity, price, p.entryPrice, p.quantity);
    assert p.UnrealizedPnl(price) == sign * (p.quantity * (price - p.entryPrice) * cfg.unit * cfg.rate);
  }

  ghost function OpenPnls(positions: map<string, Position>, prices: map<string, real>): map<string, real>
  {
    map p | p in positions :: positions[p].UnrealizedPnl(At(prices, p))
  }

  lemma WorthOfPair(cfg: BrokerConfig, a: Account, pair: string, price: real)
    requires Filed(cfg, a) && Reconciled(cfg, a) && pair in a.positions
    ensures Worth(cfg, Inventory(a.fills, pair), price)
         == a.positions[pair].UnrealizedPnl(price) + CostBasis(cfg, a.positions[pair])
  {
    assert Inventory(a.fills, pair) == Held(a.positions, pair);
    PnlIsWorth(cfg, a.positions[pair], price);
  }

  /** Realised plus unrealised profit is the replayed cash plus the replayed inventory, at any prices. */
  lemma ProfitIsReplay(cfg: BrokerConfig, a: Account, prices: map<string, real>)
    requires Filed(cfg, a) && Reconciled(cfg, a)
    ensures a.realizedPnl + Sum(OpenPnls(a.positions, prices)) == Cash(cfg, a.fills)
      + InventoryWorth(cfg, a.fills, prices)
  {
    OpenPairsArePositions(cfg, a);
    var worths, pnls, bases := InventoryWorths(cfg, a.fills, prices), OpenPnls(a.positions, prices),
      Bases(cfg, a.positions);
    forall p | p in worths ensures worths[p] == pnls[p] + bases[p] {
      WorthOfPair(cfg, a, p, At(prices, p));
    }
    SumAdd(worths, pnls, bases);
  }

  /** The equity a replay of the fills arrives at, with funding taken as given. */
  ghost function ReplayedEquity(cfg: BrokerConfig, fills: seq<Fill>, prices: map<string, real>, funding: real): real
  {
    cfg.startingEquity + Cash(cfg, fills) + InventoryWorth(cfg, fills, prices) - Fees(fills) - funding
  }

  lemma MarkedPnl(positions: map<string, Position>, marks: map<string, real>)
    requires positions.Keys <= marks.Keys
    ensures Unrealized(positions, marks) == Sum(OpenPnls(positions, marks))
  {
    assert MarkedPnls(positions, marks) == OpenPnls(positions, marks);
  }

  /**
   * Ledger refinement: after every run of decisions, candles, stop updates, funding and manual
   * locks whose accepted entries are aligned, the snapshot's equity is what a replay of the
   * fills alone gives.
   */
  lemma EquityIsReplay(cfg: BrokerConfig, events: seq<Event>)
    requires cfg.Valid() && AllAligned(cfg, events)
    ensures var a := Run(cfg, events);
      && Equity(cfg, a) == ReplayedEquity(cfg, a.fills, a.marks, a.fundingPaid)
      && a.positions.Keys == OpenPairs(a.fills)
      && forall pair :: Inventory(a.fills, pair) == Held(a.positions, pair)
  {
    var a := Run(cfg, events);
    RunReconciled(cfg, events);
    ProfitIsReplay(cfg, a, a.marks);
    OpenPairsArePositions(cfg, a);
    MarkedPnl(a.positions, a.marks);
  }

  // ------------------------------------------------------------------ the two ledgers

  ghost function CarriedFees(positions: map<string, Position>): map<string, real>
  {
    map p | p in positions :: positions[p].EntryFees()
  }

  /** Tradable base and locked profit together hold exactly the settled result so far. */
  ghost predicate Conserved(cfg: BrokerConfig, a: Account)
  {
    a.tradableBase + a.lockedProfit
      == cfg.startingEquity + a.realizedPnl - a.feesPaid + Sum(CarriedFees(a.positions))
  }

  lemma FeesChange(positions: map<string, Position>, pair: string, after: Option<Position>)
    ensures var next := if after.Some? then positions[pair := after.value] else positions - {pair};
      Sum(CarriedFees(next)) == Sum(CarriedFees(positions))
        - (if pair in positions then positions[pair].EntryFees() else 0.0)
        + (if after.Some? then after.value.EntryFees() else 0.0)
  {
    var m := CarriedFees(positions);
    if after.Some? {
      SumSet(m, pair, after.value.EntryFees());
      assert CarriedFees(positions[pair := after.value]) == m[pair := after.value.EntryFees()];
    } else {
      SumDrop(m, pair);
      assert CarriedFees(positions - {pair}) == m - {pair};
    }
  }

  lemma UnfilledConserves(cfg: BrokerConfig, a: Account, b: Account)
    requires Unfilled(a, b)
    ensures Conserved(cfg, b) <==> Conserved(cfg, a)
  {
    forall p | p in a.positions ensures a.positions[p].EntryFees() == b.positions[p].EntryFees() {
      SameFees(a.positions[p], b.positions[p]);
    }
    assert CarriedFees(a.positions) == CarriedFees(b.positions);
  }

  /** Exactly the exits that lock away their whole profit (or make none) conserve the two ledgers. */
  lemma ExitConserves(cfg: BrokerConfig, a: Account, b: Account, order: Order, f: Fill, closed: Position,
                      kept: Option<Position>)
    requires Conserved(cfg, a) && ExitMove(cfg, a, b, order, f, closed, kept)
    ensures var net := f.realizedPnl - f.fee - closed.EntryFees();
      Conserved(cfg, b) <==> net <= 0.0 || (cfg.profitLockEnabled && cfg.autoLockPct == 100.0)
  {
    FeesChange(a.positions, f.pair, kept);
    var net := f.realizedPnl - f.fee - closed.EntryFees();
    LockedWhole(cfg, net);
  }

  lemma LockedWhole(cfg: BrokerConfig, net: real)
    ensures net > 0.0 ==> (Locked(cfg, net) == net <==> cfg.profitLockEnabled && cfg.autoLockPct == 100.0)
  {
    var share := cfg.autoLockPct / 100.0;
    if net > 0.0 {
      if share < 1.0 { TimesStrict(net, share, 1.0); }
      if share > 1.0 { TimesStrict(net, 1.0, share); }
    }
  }

  lemma EntryConserves(cfg: BrokerConfig, a: Account, b: Account, order: Order, f: Fill, after: Position)
    requires EntryMove(cfg, a, b, order, f, after)
    ensures Conserved(cfg, b) <==> Conserved(cfg, a)
  {
    FeesChange(a.positions, f.pair, Some(after));
  }

  /**
   * Two-ledger conservation: with the profit lock at 100%, after every run -- partial
   * closes and manual locks included -- nothing has leaked between the two ledgers; so a
   * flat account's tradable equity is its tradable base less funding.
   */
  lemma {:induction false} RunConserved(cfg: BrokerConfig, events: seq<Event>)
    requires cfg.Valid() && cfg.profitLockEnabled && cfg.autoLockPct == 100.0
    ensures var a := Run(cfg, events);
      && Conserved(cfg, a)
      && (a.positions == map[] ==> TradableEquity(cfg, a) == a.tradableBase - a.fundingPaid)
  {
    var a := Run(cfg, events);
    if events == [] {
      assert CarriedFees(map[]) == map[];
    } else {
      var init, e := events[..|events| - 1], events[|events| - 1];
      RunConserved(cfg, init);
      var before := Run(cfg, init);
      var m := StepMoves(cfg, before, e);
      match m
      case Quiet => UnfilledConserves(cfg, before, a);
      case Manual => UnfilledConserves(cfg, before, a);
      case Entry(order, f, after) => EntryConserves(cfg, before, a, order, f, after);
      case Exit(order, f, closed, kept) => ExitConserves(cfg, before, a, order, f, closed, kept);
    }
    if a.positions == map[] {
      assert CarriedFees(a.positions) == map[];
      assert MarkedPnls(a.positions, a.marks) == map[];
    }
  }

  /** Without manual locks, the day's recorded losses are exactly what the tradable base lost that day. */
  lemma {:induction false} RunDayBalanced(cfg: BrokerConfig, events: seq<Event>)
    requires cfg.Valid() && forall e :: e in events ==> !e.ProfitLocked? && !e.ProfitUnlocked?
    ensures DayBalanced(Run(cfg, events))
  {
    if events != [] {
      var init, e := events[..|events| - 1], events[|events| - 1];
      RunDayBalanced(cfg, init);
      assert e in events;
      var m := StepMoves(cfg, Run(cfg, init), e);
    }
  }

  /** A trade's result lowers the locked profit only when it is a profit, locked at a negative percentage. */
  lemma AutoLockNeverReduces(cfg: BrokerConfig, a: Account, net: real)
    ensures LockResult(cfg, a, net).lockedProfit >= a.lockedProfit <==>
      net <= 0.0 || !cfg.profitLockEnabled || cfg.autoLockPct >= 0.0
  {
    if net > 0.0 && cfg.profitLockEnabled {
      TimesSign(net, cfg.autoLockPct / 100.0);
    }
  }

  lemma TimesSign(x: real, y: real)
    requires x > 0.0
    ensures x * y >= 0.0 <==> y >= 0.0
  {
  }

  /** A manual lock keeps locked profit from falling exactly when it is not asked to move a negative base. */
  lemma LockNeverReduces(a: Account, amount: real)
    ensures LockProfit(a, amount).lockedProfit >= a.lockedProfit <==> amount <= 0.0 || a.tradableBase >= 0.0
    ensures LockProfit(a, amount).tradableBase + LockProfit(a, amount).lockedProfit == a.tradableBase + a.lockedProfit
  {
  }

  /** No manual lock of the run is asked to move a negative base. */
  ghost predicate LocksCovered(cfg: BrokerConfig, events: seq<Event>)
    requires cfg.Valid()
  {
    events != [] ==>
      var init, e := events[..|events| - 1], events[|events| - 1];
      LocksCovered(cfg, init) && (e.ProfitLocked? && e.amount > 0.0 ==> Run(cfg, init).tradableBase >= 0.0)
  }

  /** Then locked profit never falls below zero, whatever the run does. */
  lemma {:induction false} LockedStaysNonNegative(cfg: BrokerConfig, events: seq<Event>)
    requires cfg.Valid() && (cfg.profitLockEnabled ==> cfg.autoLockPct >= 0.0) && LocksCovered(cfg, events)
    ensures Run(cfg, events).lockedProfit >= 0.0
  {
    if events != [] {
      var init, e := events[..|events| - 1], events[|events| - 1];
      LockedStaysNonNegative(cfg, init);
      LockedStep(cfg, Run(cfg, init), e);
    }
  }

  lemma LockedStep(cfg: BrokerConfig, a: Account, e: Event)
    requires cfg.Valid() && Filed(cfg, a) && a.lockedProfit >= 0.0 && (cfg.profitLockEnabled ==> cfg.autoLockPct >= 0.0)
    requires e.ProfitLocked? && e.amount > 0.0 ==> a.tradableBase >= 0.0
    ensures Step(cfg, a, e).lockedProfit >= 0.0
  {
    var m := StepMoves(cfg, a, e);
    if m.Manual? {
      LockedByHand(cfg, a, e);
    } else {
      LockedMove(cfg, a, Step(cfg, a, e), m);
    }
  }

  lemma LockedByHand(cfg: BrokerConfig, a: Account, e: Event)
    requires cfg.Valid() && Filed(cfg, a) && (e.ProfitLocked? || e.ProfitUnlocked?) && a.lockedProfit >= 0.0
    requires e.ProfitLocked? && e.amount > 0.0 ==> a.tradableBase >= 0.0
    ensures Step(cfg, a, e).lockedProfit >= 0.0
  {
  }

  lemma LockedMove(cfg: BrokerConfig, a: Account, b: Account, m: Move)
    requires !m.Manual? && Moves(cfg, a, b, m) && a.lockedProfit >= 0.0
    requires cfg.profitLockEnabled ==> cfg.autoLockPct >= 0.0
    ensures b.lockedProfit >= 0.0
  {
    if m.Exit? {
      var net := m.fill.realizedPnl - m.fill.fee - m.closed.EntryFees();
      LockedNonNegative(cfg, net);
    }
  }

  lemma LockedNonNegative(cfg: BrokerConfig, net: real)
    requires cfg.profitLockEnabled ==> cfg.autoLockPct >= 0.0
    ensures Locked(cfg, net) >= 0.0
  {
    if net > 0.0 && cfg.profitLockEnabled { TimesOrder(net, 0.0, cfg.autoLockPct / 100.0); }
  }

  /** Unlocking what was just locked restores both ledgers, for any amount the base covers. */
  lemma UnlockUndoesLock(a: Account, amount: real)
    requires a.lockedProfit >= 0.0 && 0.0 <= amount <= a.tradableBase
    ensures var b := UnlockProfit(LockProfit(a, amount), amount);
      b == a.(unlockedProfit := a.unlockedProfit + amount)
  {
  }

  // ------------------------------------------------------------------ the loss-limit override

  lemma OpenOverride(cfg: BrokerConfig, a: Account, d: Decision, market: Option<real>, ts: int)
    requires Filed(cfg, a)
    ensures Open(cfg, a, d, market, ts).0.overrideEnabled == a.overrideEnabled
  {
  }

  lemma LeaveOverride(cfg: BrokerConfig, a: Account, p: Position, s: Signal, closed: Position, kept: Option<Position>,
                      base: real, ts: int, reason: Reason, d: Option<Decision>)
    ensures Leave(cfg, a, p, s, closed, kept, base, ts, reason, d).0.overrideEnabled == a.overrideEnabled
  {
  }

  lemma CloseOverride(cfg: BrokerConfig, a: Account, s: Signal, market: Option<real>, ts: int, d: Option<Decision>,
                      reason: Reason)
    requires Filed(cfg, a)
    ensures Close(cfg, a, s, market, ts, d, reason).0.overrideEnabled == a.overrideEnabled
  {
  }

  lemma ExecuteOverride(cfg: BrokerConfig, a: Account, d: Decision, market: Option<real>, ts: int)
    requires Filed(cfg, a)
    ensures Execute(cfg, a, d, market, ts).0.overrideEnabled == a.overrideEnabled
  {
    if d.approved && d.signal.action.IsEntry() {
      OpenOverride(cfg, a, d, market, ts);
    } else if d.approved && d.signal.action.IsExit() {
      CloseOverride(cfg, a, d.signal, market, ts, Some(d), d.signal.reason);
    }
  }

  lemma PartialOverride(cfg: BrokerConfig, a: Account, s: Signal, market: Option<real>, ts: int, d: Option<Decision>,
                        reason: Reason)
    requires Filed(cfg, a)
    ensures PartialClose(cfg, a, s, market, ts, d, reason).0.overrideEnabled == a.overrideEnabled
  {
    var share := ShareOf(a, s);
    if !PartialRefused(a, s, market, share) {
      var p := a.positions[s.pair];
      LeaveOverride(cfg, a, p, s, ClosedShare(p, share), Some(KeptShare(p, share, ts)),
                    OrElse(market, s.entryPrice).value, ts, reason, d);
    }
  }

  lemma TriggerOverride(cfg: BrokerConfig, a: Account, p: Position, c: Candle, t: ExitTriggers.Trigger)
    requires Filed(cfg, a)
    ensures TriggerExit(cfg, a, p, c, t).0.overrideEnabled == a.overrideEnabled
  {
    var s := TriggerSignal(p, t);
    PartialOverride(cfg, a, s, Some(t.price), c.closeTime, None, t.reason);
    CloseOverride(cfg, a, s, Some(t.price), c.closeTime, None, t.reason);
  }

  lemma CandleOverride(cfg: BrokerConfig, a: Account, c: Candle)
    requires Filed(cfg, a) && !a.overrideEnabled
    ensures !OnCandle(cfg, a, c).0.overrideEnabled
  {
    var b := ResetDay(a, Day(c.closeTime));
    if c.pair in b.positions {
      var t := ExitTriggers.TriggerFor(b.positions[c.pair], c);
      if t.Some? { TriggerOverride(cfg, b, b.positions[c.pair], c, t.value); }
    }
  }

  lemma ManagedOverride(cfg: BrokerConfig, a: Account, c: Candle, atr: Option<real>,
                        settings: StopManagement.ExitSettings, band: Option<TrailPolicies.Band>)
    requires Filed(cfg, a) && ManageExits(cfg, a, c, atr, settings, band).Ok?
    ensures ManageExits(cfg, a, c, atr, settings, band).value.overrideEnabled == a.overrideEnabled
  {
  }

  lemma StepOverride(cfg: BrokerConfig, a: Account, e: Event)
    requires Filed(cfg, a) && !a.overrideEnabled
    ensures !Step(cfg, a, e).overrideEnabled
  {
    match e
    case Decided(d, market, ts) => ExecuteOverride(cfg, a, d, market, ts);
    case CandleClosed(c) => CandleOverride(cfg, a, c);
    case ExitsManaged(c, atr, settings, band) =>
      if ManageExits(cfg, a, c, atr, settings, band).Ok? { ManagedOverride(cfg, a, c, atr, settings, band); }
    case FundingPaid(_, _) =>
    case Marked(_) =>
    case BookReceived(_, _, _) =>
    case ProfitLocked(_) =>
    case ProfitUnlocked(_) =>
  }

  /** Nothing the broker does switches the override on. */
  lemma {:induction false} OverrideStaysOff(cfg: BrokerConfig, events: seq<Event>)
    requires cfg.Valid()
    ensures !Run(cfg, events).overrideEnabled
  {
    if events != [] {
      OverrideStaysOff(cfg, events[..|events| - 1]);
      StepOverride(cfg, Run(cfg, events[..|events| - 1]), events[|events| - 1]);
    }
  }
}
