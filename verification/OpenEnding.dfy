/** A run that ends with a position open: its last candle closes at zero, where nothing can be closed. */
module OpenEnding {
  import opened Common
  import opened Market
  import opened Sums
  import opened Ledger
  import opened LedgerMoves
  import opened LedgerRuns
  import opened SafetyGuard
  import opened BacktestTrace
  import opened BacktestBooks
  import opened BacktestPages
  import opened Backtest
  import ExitTriggers
  import Lists
  import Sorting
  import StopManagement
  import Witnesses

  /** Every guard switched off. */
  const NoGuards := SafetyConfig(
    0, 0, 0, false, 0, 0, 0, 0, 0, false, 0.0, 0, false, 0, 0.0, 0, false, 0, 0.0, 0.0)

  /** One-minute candles of one pair, without costs, funding or stop management; a day may lose half the equity. */
  const Calm := BacktestConfig(Witnesses.NoCosts, "P", NoGuards, 60_000, 0.0, 0, 50.0, false, Witnesses.TrailOnly)

  const First := Candle("P", "1m", 0, 59_999, 100.0, 100.0, 100.0, 100.0, 1.0, 1.0, 1, true)

  /** It opens at 100 and closes at zero. */
  const Second := Candle("P", "1m", 60_000, 119_999, 100.0, 100.0, 0.0, 0.0, 1.0, 1.0, 1, true)

  /** Buy one unit, without stop or target. */
  const Buying := Decision(true,
    Signal("s", "P", EnterLong, Some(Long), Some(100.0), None, None, Strategy(false), None, map[]),
    Some(1.0), Some(1.0), None, map[])

  /** The decision is made on the first candle, and nothing on the second. */
  const OneEntry := [CandleInputs(None, None, [Buying]), CandleInputs(None, None, [])]

  // ------------------------------------------------------------------ before the entry

  /** Nothing has been traded. */
  ghost predicate Idle(cfg: BrokerConfig, a: Account)
  {
    && a.positions == map[] && a.books == map[] && a.tradableBase == cfg.startingEquity
    && a.realizedPnl == a.feesPaid == a.fundingPaid == a.lockedProfit == 0.0
  }

  function Watching(): Event -> bool { (e: Event) => e.Marked? || e.CandleClosed? }

  lemma {:induction false} IdleStretch(cfg: BrokerConfig, journal: seq<Call>, a: Account, x: nat)
    requires Lived(cfg, journal, a) && x <= |journal| && forall z :: 0 <= z < x ==> Watching()(journal[z].event)
    ensures Idle(cfg, AccountAt(cfg, journal, x))
  {
    if x > 0 {
      IdleStretch(cfg, journal, a, x - 1);
      assert LinkedAt(cfg, journal, x - 1);
      var c := journal[x - 1];
      assert c.after == Step(cfg, c.before, c.event);
    }
  }

  lemma IdleEquity(cfg: BrokerConfig, a: Account)
    requires Idle(cfg, a)
    ensures Equity(cfg, a) == TradableEquity(cfg, a) == cfg.startingEquity
  {
    assert MarkedPnls(a.positions, a.marks) == map[];
  }

  predicate Unarmed(k: Cooldowns) { k.loss == k.stop == k.giveback == k.spike == 0 }

  /** With every guard switched off no cooldown ever runs. */
  lemma {:induction false} NothingArmed(u: Setup, seen: seq<Watch>)
    requires u.cfg == NoGuards && u.span(0) == 0
    ensures Unarmed(Cooled(u, seen))
  {
    if seen != [] {
      var past, w := seen[..|seen| - 1], seen[|seen| - 1];
      NothingArmed(u, past);
      StaysUnarmed(u, Cooled(u, past), EquitiesIn(past), TradesIn(past), w);
    }
  }

  lemma StaysUnarmed(u: Setup, k: Cooldowns, equities: seq<(int, real)>, trades: seq<Trade>, w: Watch)
    requires u.cfg == NoGuards && u.span(0) == 0 && Unarmed(k)
    ensures Unarmed(AfterWatch(u, k, equities, trades, w))
  {
  }

  // ------------------------------------------------------------------ after the entry

  predicate Plain(p: Position)
  {
    p.stopLoss.None? && p.takeProfit.None? && BB_TRAIL_FORCE_CLOSE !in p.metadata && TIME_STOP_MS !in p.metadata
  }

  /** A position without stop, target or time limit is open. */
  ghost predicate HoldsPlain(a: Account) { "P" in a.positions && Plain(a.positions["P"]) }

  /** A decision that is not approved, or has no positive price. */
  predicate Unpriced(d: Decision, market: Option<real>)
  {
    !d.approved || NotPositive(OrElse(market, d.signal.entryPrice))
  }

  function Harmless(): Event -> bool
  {
    (e: Event) =>
      e.Marked? || (e.CandleClosed? && e.candle.pair == "P") || (e.Decided? && Unpriced(e.d, e.market))
  }

  /** Without a positive price nothing is executed. */
  lemma NothingExecuted(cfg: BrokerConfig, a: Account, d: Decision, market: Option<real>, ts: int)
    requires Filed(cfg, a) && Unpriced(d, market)
    ensures Execute(cfg, a, d, market, ts).0.positions == a.positions
  {
  }

  lemma PlainUntriggered(p: Position, c: Candle)
    requires Plain(p)
    ensures ExitTriggers.TriggerFor(p, c).None?
  {
    assert Get(p.metadata, BB_TRAIL_FORCE_CLOSE) == Null && Get(p.metadata, TIME_STOP_MS) == Null;
  }

  lemma PlainUntrailed(cfg: BrokerConfig, p: Position, c: Candle)
    requires Plain(p)
    ensures StopManagement.UpdateTrailingStop(cfg, p, c) == p
  {
  }

  /** Nor does a candle close the position or change it. */
  lemma PlainOnCandle(cfg: BrokerConfig, a: Account, c: Candle)
    requires Filed(cfg, a) && HoldsPlain(a) && c.pair == "P"
    ensures OnCandle(cfg, a, c).0.positions == a.positions
  {
    PlainUntriggered(a.positions["P"], c);
    PlainUntrailed(cfg, a.positions["P"], c);
  }

  lemma PlainCall(cfg: BrokerConfig, c: Call)
    requires Genuine(cfg, c) && HoldsPlain(c.before) && Harmless()(c.event)
    ensures HoldsPlain(c.after)
  {
    var e := c.event;
    assert c.after == Step(cfg, c.before, e);
    if e.CandleClosed? {
      PlainOnCandle(cfg, c.before, e.candle);
    } else if e.Decided? {
      NothingExecuted(cfg, c.before, e.d, e.market, e.ts);
    }
  }

  lemma {:induction false} PlainStretch(cfg: BrokerConfig, journal: seq<Call>, a: Account, x: nat, y: nat)
    requires Lived(cfg, journal, a) && x <= y <= |journal| && HoldsPlain(AccountAt(cfg, journal, x))
    requires forall z :: x <= z < y ==> Harmless()(journal[z].event)
    ensures HoldsPlain(AccountAt(cfg, journal, y))
  {
    if x < y {
      PlainStretch(cfg, journal, a, x, y - 1);
      assert LinkedAt(cfg, journal, y - 1);
      PlainCall(cfg, journal[y - 1]);
    }
  }

  lemma BuyingOpens(a: Account, ts: int)
    requires Idle(Calm.broker, a)
    ensures HoldsPlain(Execute(Calm.broker, a, Buying, Some(100.0), ts).0)
  {
    var cfg := Calm.broker;
    var marked := WithMark(a, "P", Some(100.0));
    IdleEquity(cfg, marked);
    assert EntryPrice(cfg, a, Buying, 100.0) == 100.0;
    assert cfg.MarginNotional(1.0, 100.0) == 100.0;
  }

  // ------------------------------------------------------------------ the two candles

  ghost predicate Story2(sc: Scenario, s: Story, fired: set<nat>, pages: seq<Page>, a: Account)
  {
    && sc == Scenario(Calm, [First, Second], OneEntry) && |pages| == 2 && PagesOk(sc, s, fired, pages)
    && Lived(Calm.broker, s.journal, a)
  }

  lemma OpenedFirst(sc: Scenario, s: Story, fired: set<nat>, pages: seq<Page>, a: Account)
    requires Story2(sc, s, fired, pages, a)
    ensures s.Reaches(pages[0].settled) && AllFrom(s.Upto(pages[0].settled).journal, 0, Watching())
  {
    assert PageOk(sc, s, fired, pages, 0);
    var p := pages[0];
    assert SettledAt(sc, 0, s.Upto(p.filled), s.Upto(p.settled));
    AddedFrom(s.Upto(p.start).journal, s.Upto(p.filled).journal, Opening(Calm, First, BegunBefore(sc.candles, 0), []),
              0, Watching());
    AddedFrom(s.Upto(p.filled).journal, s.Upto(p.settled).journal, Settling(Calm, First), 0, Watching());
  }

  /** The day has lost nothing when the first candle is checked. */
  lemma FirstUnfired(sc: Scenario, s: Story, fired: set<nat>, pages: seq<Page>, a: Account)
    requires Story2(sc, s, fired, pages, a)
    ensures 0 !in fired && s.Reaches(pages[0].switched)
    ensures AllFrom(s.Upto(pages[0].switched).journal, 0, Watching())
  {
    OpenedFirst(sc, s, fired, pages, a);
    assert PageOk(sc, s, fired, pages, 0);
    var p, x := pages[0], pages[0].settled.calls + 1;
    var b, c := s.Upto(p.settled).journal, s.Upto(p.switched).journal;
    assert SwitchedAt(sc, 0, BaseOf(sc, s, pages, 0), fired, s.Upto(p.settled), s.Upto(p.switched));
    forall z | 0 <= z < x ensures Watching()(s.journal[z].event) {
      if z < |b| { assert b[z] == s.journal[z]; }
    }
    IdleStretch(Calm.broker, s.journal, a, x);
    IdleEquity(Calm.broker, AccountAt(Calm.broker, s.journal, x));
    assert AccountAt(Calm.broker, c, x) == AccountAt(Calm.broker, s.journal, x);
    assert BaseOf(sc, s, pages, 0) == Calm.broker.startingEquity;
  }

  lemma BuyingPasses(seen: seq<Watch>)
    ensures Verdicts(GuardOf(Calm), seen, First, OneEntry[0], 1) == [Buying]
  {
    NothingArmed(GuardOf(Calm), seen);
    VerdictAt(GuardOf(Calm), seen, First, OneEntry[0], 1, 0);
    assert Tries(First, OneEntry[0], 0) == [] && seen + [] == seen;
  }

  lemma OnePutNoneRefused()
    ensures Refusals([Buying], First) == [] && Puts([Buying], 0, First) == [Deferral(Buying, First.closeTime, 0, 0)]
  {
    assert [Buying][..0] == [];
  }

  /** What the first candle's decision leads to. */
  lemma FirstDeals(sc: Scenario, s: Story, fired: set<nat>, pages: seq<Page>, a: Account)
    requires Story2(sc, s, fired, pages, a)
    ensures s.Reaches(pages[0].switched) && s.Reaches(pages[0].closed) && 0 < pages[0].closed.calls
    ensures s.deferred[..pages[0].closed.deferred] == [Deferral(Buying, First.closeTime, 0, 0)]
    ensures Adds(s.journal[..pages[0].switched.calls], s.journal[..pages[0].closed.calls - 1], [])
  {
    FirstUnfired(sc, s, fired, pages, a);
    PageOrdered(sc, s, fired, pages, 0);
    var d, e := s.Upto(pages[0].switched), s.Upto(pages[0].closed);
    DealtSays(sc, 0, fired, d, e);
    BuyingPasses(d.seen);
    OnePutNoneRefused();
    assert d.deferred == [] && Managing(Calm, First, OneEntry[0]) + [] == [];
    assert e.journal[..|e.journal| - 1] == s.journal[..pages[0].closed.calls - 1];
  }

  /** The first candle ends with the entry waiting. */
  lemma FirstLeaves(sc: Scenario, s: Story, fired: set<nat>, pages: seq<Page>, a: Account)
    requires Story2(sc, s, fired, pages, a)
    ensures pages[0].left == [Pending(Buying, First.closeTime)]
  {
    FirstDeals(sc, s, fired, pages, a);
    assert PageOk(sc, s, fired, pages, 0);
    assert Queue([Deferral(Buying, First.closeTime, 0, 0)], 0) == [Pending(Buying, First.closeTime)];
  }

  lemma FirstCloses(sc: Scenario, s: Story, fired: set<nat>, pages: seq<Page>, a: Account)
    requires Story2(sc, s, fired, pages, a)
    ensures s.Reaches(pages[0].closed) && AllFrom(s.Upto(pages[0].closed).journal, 0, Watching())
  {
    FirstUnfired(sc, s, fired, pages, a);
    FirstDeals(sc, s, fired, pages, a);
    PageOrdered(sc, s, fired, pages, 0);
    var last := pages[0].closed.calls - 1;
    AddedFrom(s.journal[..pages[0].switched.calls], s.journal[..last], [], 0, Watching());
    MarkedLast(s.journal, last, Watching());
  }

  lemma MarkedLast(journal: seq<Call>, last: nat, ok: Event -> bool)
    requires last < |journal| && AllFrom(journal[..last], 0, ok) && ok(journal[last].event)
    ensures AllFrom(journal[..last + 1], 0, ok)
  {
    var before, after := journal[..last], journal[..last + 1];
    forall z | 0 <= z < |after| ensures ok(after[z].event) {
      if z < last { assert before[z] == after[z]; }
    }
  }

  lemma OneFill(waiting: seq<Pending>, begun: bool)
    requires waiting == [Pending(Buying, First.closeTime)]
    ensures Opening(Calm, Second, begun, waiting) ==
      DayMark(Calm, Second, begun) + [Decided(Buying, Some(100.0), 60_000)]
  {
    assert Fills(Second, waiting, 0) == [];
    assert Fills(Second, waiting, 1) == [] + [FillOf(Second, waiting[0])];
  }

  lemma LastAdded(before: seq<Call>, after: seq<Call>, marks: seq<Event>, e: Event)
    requires Adds(before, after, marks + [e]) && AllFrom(before, 0, Watching())
      && forall m :: m in marks ==> Watching()(m)
    ensures |after| > 0 && after[|after| - 1].event == e && AllFrom(after[..|after| - 1], 0, Watching())
  {
    AddsCount(before, after, marks + [e]);
    assert AddedAt(before, after, marks + [e], |after| - 1);
    forall z | 0 <= z < |after| - 1 ensures Watching()(after[z].event) {
      assert AddedAt(before, after, marks + [e], z);
      if z >= |before| { assert marks[z - |before|] in marks; }
    }
  }

  lemma FilledOnce(journal: seq<Call>, a: Account, x: nat)
    requires Lived(Calm.broker, journal, a) && x < |journal| && AllFrom(journal[..x], 0, Watching())
    requires journal[x].event == Decided(Buying, Some(100.0), 60_000)
    ensures HoldsPlain(AccountAt(Calm.broker, journal, x + 1))
  {
    forall z | 0 <= z < x ensures Watching()(journal[z].event) { assert journal[..x][z] == journal[z]; }
    IdleStretch(Calm.broker, journal, a, x);
    assert LinkedAt(Calm.broker, journal, x);
    var c := journal[x];
    assert c.after == Step(Calm.broker, c.before, c.event);
    BuyingOpens(c.before, 60_000);
  }

  /** The entry is filled at the second candle's open. */
  lemma SecondOpens(sc: Scenario, s: Story, fired: set<nat>, pages: seq<Page>, a: Account)
    requires Story2(sc, s, fired, pages, a)
    ensures s.Reaches(pages[1].filled) && HoldsPlain(AccountAt(Calm.broker, s.journal, pages[1].filled.calls))
  {
    FirstCloses(sc, s, fired, pages, a);
    FirstLeaves(sc, s, fired, pages, a);
    assert PageOk(sc, s, fired, pages, 1);
    var p, begun := pages[1], BegunBefore(sc.candles, 1);
    var b, c := s.Upto(p.start).journal, s.Upto(p.filled).journal;
    OneFill(p.waiting, begun);
    LastAdded(b, c, DayMark(Calm, Second, begun), Decided(Buying, Some(100.0), 60_000));
    assert c[..|c| - 1] == s.journal[..|c| - 1];
    FilledOnce(s.journal, a, |c| - 1);
  }

  /** From there on nothing can be executed. */
  lemma SecondSettles(sc: Scenario, s: Story, fired: set<nat>, pages: seq<Page>, a: Account)
    requires Story2(sc, s, fired, pages, a)
    ensures s.Reaches(pages[1].filled) && s.Reaches(pages[1].switched)
    ensures pages[1].filled.calls <= pages[1].switched.calls
    ensures AllFrom(s.Upto(pages[1].switched).journal, pages[1].filled.calls, Harmless())
  {
    assert PageOk(sc, s, fired, pages, 1);
    var p, x := pages[1], pages[1].filled.calls;
    var b, c, d := s.Upto(p.filled), s.Upto(p.settled), s.Upto(p.switched);
    assert SettledAt(sc, 1, b, c) && SwitchedAt(sc, 1, BaseOf(sc, s, pages, 1), fired, c, d);
    AddedFrom(b.journal, c.journal, Settling(Calm, Second), x, Harmless());
    SwitchedHarmless(c.journal, d.journal, x);
  }

  lemma SwitchedHarmless(before: seq<Call>, after: seq<Call>, x: nat)
    requires x <= |before| < |after| && AllFrom(before, x, Harmless()) && after[..|before|] == before
    requires after[|before|].event.Marked?
    requires forall z :: |before| < z < |after| ==> Closing(after[z].event, Second, KillSwitch)
    ensures AllFrom(after, x, Harmless())
  {
    forall z | x <= z < |after| ensures Harmless()(after[z].event) {
      if z < |before| { assert after[..|before|][z] == before[z]; }
    }
  }

  lemma SecondCloses(sc: Scenario, s: Story, fired: set<nat>, pages: seq<Page>, a: Account)
    requires Story2(sc, s, fired, pages, a)
    ensures s.Reaches(pages[1].filled) && s.Reaches(pages[1].closed) && pages[1].filled.calls <= pages[1].closed.calls
    ensures AllFrom(s.Upto(pages[1].closed).journal, pages[1].filled.calls, Harmless())
  {
    SecondSettles(sc, s, fired, pages, a);
    PageOrdered(sc, s, fired, pages, 1);
    var p, x := pages[1], pages[1].filled.calls;
    var d, e := s.Upto(p.switched), s.Upto(p.closed);
    DealtSays(sc, 1, fired, d, e);
    var kept := e.journal[..|e.journal| - 1];
    if !HaltedAt(sc.candles, fired, 1) {
      AddedFrom(d.journal, kept, Managing(Calm, Second, OneEntry[1]) + Refusals([], Second), x, Harmless());
    }
    assert Dealt(sc, 1, fired, d, e);
    forall z | x <= z < |e.journal| ensures Harmless()(e.journal[z].event) {
      if z < |kept| { assert kept[z] == e.journal[z]; }
    }
  }

  lemma {:induction false} LeftoversHarmless(left: seq<Pending>, k: nat)
    requires k <= |left|
    ensures forall e :: e in Leftovers(Second, left, k) ==> Harmless()(e)
  {
    if k > 0 { LeftoversHarmless(left, k - 1); }
  }

  lemma WindingUp(s: Story, t: Story, left: seq<Pending>, x: nat)
    requires Concluded(s, t, Second, left) && AllFrom(s.journal, x, Harmless())
    ensures AllFrom(t.journal, x, Harmless())
  {
    var m := t.journal[..|s.journal| + |left|];
    LeftoversHarmless(left, |left|);
    AddedFrom(s.journal, m, Leftovers(Second, left, |left|), x, Harmless());
    forall z | x <= z < |t.journal| ensures Harmless()(t.journal[z].event) {
      assert WoundAt(m, t.journal, Second, z);
      if z < |m| { assert m[z] == t.journal[z]; }
    }
  }

  lemma StillOpen(sc: Scenario, s: Story, fired: set<nat>, pages: seq<Page>, curve: seq<EquityPoint>, a: Account)
    requires Story2(sc, s, fired, pages, a) && Complete(sc, s, fired, pages, curve)
    ensures a.positions != map[]
  {
    SecondOpens(sc, s, fired, pages, a);
    SecondCloses(sc, s, fired, pages, a);
    WindingUp(s.Upto(pages[1].closed), s, pages[1].left, pages[1].filled.calls);
    PlainStretch(Calm.broker, s.journal, a, pages[1].filled.calls, |s.journal|);
  }

  /** Sorting leaves the two candles as they are. */
  lemma SortedAlready(candles: seq<Candle>)
    requires |candles| == 2 && Sorting.SortedBy(candles, ByOpen())
    requires forall k :: Sorting.WithKey(candles, k, ByOpen()) == Sorting.WithKey([First, Second], k, ByOpen())
    ensures candles == [First, Second]
  {
    var earlier, later := Sorting.WithKey(candles, 0.0, ByOpen()), Sorting.WithKey(candles, 60_000.0, ByOpen());
    OfTwo(candles, 0.0);
    OfTwo(candles, 60_000.0);
    OfTwo([First, Second], 0.0);
    OfTwo([First, Second], 60_000.0);
    assert ByOpen()(First) == 0.0 && ByOpen()(Second) == 60_000.0;
    assert earlier == [First] && later == [Second];
    assert ByOpen()(candles[0]) <= ByOpen()(candles[1]);
    assert First in earlier && Second in later;
    assert candles[0] == First;
    assert candles[1] == Second;
  }

  lemma OfTwo(candles: seq<Candle>, k: real)
    requires |candles| == 2
    ensures Sorting.WithKey(candles, k, ByOpen()) ==
      (if ByOpen()(candles[0]) == k then [candles[0]] else [])
      + (if ByOpen()(candles[1]) == k then [candles[1]] else [])
  {
    var keep := Sorting.HasKey(k, ByOpen());
    assert candles[..1] == [candles[0]] && [candles[0]][..0] == [];
    assert Lists.Keep(candles, keep) ==
      Lists.Keep(candles[..1], keep) + (if keep(candles[1]) then [candles[1]] else []);
    assert Lists.Keep([candles[0]], keep) == Lists.Keep([], keep) + (if keep(candles[0]) then [candles[0]] else []);
  }

  /** A completed run that does not end flat, for every account of how its trades went. */
  method EndOpen() returns (e: Engine, outcome: Outcome)
    ensures e.candles == [First, Second] && outcome.Completed? && e.Finished() && !e.EndsFlat()
    ensures e.broker.positions != map[]
  {
    e, outcome := RunBacktest(Calm, [First, Second], OneEntry);
    SortedAlready(e.candles);
    assert Accounted(e.cfg.broker, e.journal, e.broker.State(), e.Ledgers(), e.fundedOn);
    StillOpen(e.Sc(), e.Here(), e.trace.fired, e.pages, e.curve, e.broker.State());
  }
}
