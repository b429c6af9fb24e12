/**
 * What each candle of a run does, call by call, and what follows for the whole run.
 * Predicates that engine contracts hand on are stated for every `k` equal to their index:
 * a proof has to name `...At` to look inside, and the others carry them along unopened.
 */
module BacktestPages {
  import opened Common
  import opened Market
  import opened Ledger
  import opened LedgerRuns
  import opened SafetyGuard
  import opened BacktestTrace
  import opened BacktestBooks
  import opened FundingClock

  datatype Scenario = Scenario(cfg: BacktestConfig, candles: seq<Candle>, inputs: seq<CandleInputs>)
  {
    predicate Covers(n: nat) { n < |candles| == |inputs| }
  }

  // ------------------------------------------------------------------ the story of a run

  /** How far the three lists of a story have got. */
  datatype Spot = Spot(calls: nat, seen: nat, deferred: nat)

  /** The broker calls, what the safety guard was told, and the decisions put off: lists that only grow. */
  datatype Story = Story(journal: seq<Call>, seen: seq<Watch>, deferred: seq<Deferral>)
  {
    function End(): Spot { Spot(|journal|, |seen|, |deferred|) }

    predicate Reaches(p: Spot) { p.calls <= |journal| && p.seen <= |seen| && p.deferred <= |deferred| }

    /** The story so far, as it was at an earlier spot. */
    function Upto(p: Spot): Story
      requires Reaches(p)
    {
      Story(journal[..p.calls], seen[..p.seen], deferred[..p.deferred])
    }

    /** The account at the end. */
    function Now(cfg: BrokerConfig): Account { AccountAt(cfg, journal, |journal|) }
  }

  predicate Grows(s: Story, t: Story) { t.Reaches(s.End()) && t.Upto(s.End()) == s }

  lemma GrowsOn(s: Story, t: Story, u: Story)
    requires Grows(s, t) && Grows(t, u)
    ensures Grows(s, u)
  {
    assert u.Upto(s.End()) == u.Upto(t.End()).Upto(s.End());
  }

  /** What a story said at a spot stays as it was. */
  lemma UptoKept(s: Story, t: Story, p: Spot)
    requires Grows(s, t) && s.Reaches(p)
    ensures t.Reaches(p) && t.Upto(p) == s.Upto(p)
  {
    assert t.Upto(p) == t.Upto(s.End()).Upto(p);
  }

  /** These calls, in this order, were added. */
  ghost predicate Adds(before: seq<Call>, after: seq<Call>, events: seq<Event>)
  {
    forall x: nat :: AddedAt(before, after, events, x)
  }

  ghost predicate AddedAt(before: seq<Call>, after: seq<Call>, events: seq<Event>, x: nat)
  {
    && (x < |after| <==> x < |before| + |events|)
    && (x < |before| ==> after[x] == before[x]) && (|before| <= x < |after| ==> after[x].event == events[x - |before|])
  }

  lemma AddsCount(before: seq<Call>, after: seq<Call>, events: seq<Event>)
    requires Adds(before, after, events)
    ensures |after| == |before| + |events|
  {
    assert AddedAt(before, after, events, |after|) && AddedAt(before, after, events, |before| + |events|);
  }

  /** The guard was told of trades and nothing else. */
  ghost predicate OnlyTrades(before: seq<Watch>, after: seq<Watch>)
  {
    forall x: nat :: ToldAt(before, after, x)
  }

  ghost predicate ToldAt(before: seq<Watch>, after: seq<Watch>, x: nat)
  {
    (x < |before| ==> x < |after| && after[x] == before[x]) && (|before| <= x < |after| ==> after[x].SawTrade?)
  }

  /** These calls were made, and no decision was put off or tried. */
  ghost predicate Passed(s: Story, t: Story, events: seq<Event>)
  {
    Adds(s.journal, t.journal, events) && OnlyTrades(s.seen, t.seen) && t.deferred == s.deferred
  }

  lemma AddsOn(x: seq<Call>, y: seq<Call>, z: seq<Call>, e: seq<Event>, f: seq<Event>)
    requires Adds(x, y, e) && Adds(y, z, f)
    ensures Adds(x, z, e + f)
  {
    AddsCount(x, y, e);
    forall i: nat ensures AddedAt(x, z, e + f, i) {
      assert AddedAt(y, z, f, i) && AddedAt(x, y, e, i);
    }
  }

  /** All calls from some point on are of a kind. */
  ghost predicate AllFrom(journal: seq<Call>, x: nat, ok: Event -> bool)
  {
    forall z :: x <= z < |journal| ==> ok(journal[z].event)
  }

  lemma AddedFrom(before: seq<Call>, after: seq<Call>, events: seq<Event>, x: nat, ok: Event -> bool)
    requires Adds(before, after, events) && AllFrom(before, x, ok) && forall e :: e in events ==> ok(e)
    ensures AllFrom(after, x, ok) && |after| == |before| + |events|
  {
    AddsCount(before, after, events);
    forall z | x <= z < |after| ensures ok(after[z].event) {
      assert AddedAt(before, after, events, z);
      if z >= |before| { assert events[z - |before|] in events; }
    }
  }

  /** What was there before is still there. */
  lemma AddsBehind(x: seq<Call>, y: seq<Call>, e: seq<Event>)
    requires Adds(x, y, e)
    ensures |y| == |x| + |e| && y[..|x|] == x
  {
    AddsCount(x, y, e);
    forall i | 0 <= i < |x| ensures y[i] == x[i] { assert AddedAt(x, y, e, i); }
  }

  lemma TradesBehind(x: seq<Watch>, y: seq<Watch>)
    requires OnlyTrades(x, y)
    ensures |x| <= |y| && y[..|x|] == x
  {
    assert ToldAt(x, y, |y|);
    forall i | 0 <= i < |x| ensures y[i] == x[i] { assert ToldAt(x, y, i); }
  }

  lemma TradesOn(x: seq<Watch>, y: seq<Watch>, z: seq<Watch>)
    requires OnlyTrades(x, y) && OnlyTrades(y, z)
    ensures OnlyTrades(x, z)
  {
    forall i: nat ensures ToldAt(x, z, i) {
      assert ToldAt(y, z, i) && ToldAt(x, y, i);
    }
  }

  lemma PassedOn(s: Story, t: Story, u: Story, e: seq<Event>, f: seq<Event>)
    requires Passed(s, t, e) && Passed(t, u, f)
    ensures Passed(s, u, e + f)
  {
    AddsOn(s.journal, t.journal, u.journal, e, f);
    TradesOn(s.seen, t.seen, u.seen);
  }

  lemma PassedCall(s: Story, t: Story, c: Call)
    requires t.journal == s.journal + [c] && OnlyTrades(s.seen, t.seen) && t.deferred == s.deferred
    ensures Passed(s, t, [c.event])
  {
    forall x: nat ensures AddedAt(s.journal, t.journal, [c.event], x) {}
  }

  lemma PassedNothing(s: Story)
    ensures Passed(s, s, [])
  {
    forall x: nat ensures AddedAt(s.journal, s.journal, [], x) {}
    TradesRefl(s.seen);
  }

  lemma TradesRefl(seen: seq<Watch>)
    ensures OnlyTrades(seen, seen)
  {
    forall x: nat ensures ToldAt(seen, seen, x) {}
  }

  // ------------------------------------------------------------------ what a candle prescribes

  /** The execution of a pending decision at a candle's open. */
  function FillOf(c: Candle, p: Pending): Event { Decided(p.decision, Some(c.open), c.openTime) }

  predicate Due(c: Candle, p: Pending) { p.generatedAt < c.openTime }

  /** Every due decision among the first `k`, in order. */
  function Fills(c: Candle, pending: seq<Pending>, k: nat): seq<Event>
    requires k <= |pending|
  {
    if k == 0 then []
    else if Due(c, pending[k - 1]) then Fills(c, pending, k - 1) + [FillOf(c, pending[k - 1])]
    else Fills(c, pending, k - 1)
  }

  /** The others keep waiting. */
  function Left(c: Candle, pending: seq<Pending>, k: nat): seq<Pending>
    requires k <= |pending|
  {
    if k == 0 then []
    else if Due(c, pending[k - 1]) then Left(c, pending, k - 1)
    else Left(c, pending, k - 1) + [pending[k - 1]]
  }

  /** If its day has not begun yet, the day's base is read; then the due decisions are executed. */
  function Opening(cfg: BacktestConfig, c: Candle, begun: bool, pending: seq<Pending>): seq<Event>
  {
    DayMark(cfg, c, begun) + Fills(c, pending, |pending|)
  }

  function DayMark(cfg: BacktestConfig, c: Candle, begun: bool): seq<Event>
  {
    if begun then [] else [Marked(map[cfg.pair := c.open])]
  }

  /** What keeps waiting is not due. */
  lemma {:induction false} LeftWait(c: Candle, pending: seq<Pending>, k: nat)
    requires k <= |pending|
    ensures forall i :: 0 <= i < |Left(c, pending, k)| ==> !Due(c, Left(c, pending, k)[i])
  {
    if k > 0 { LeftWait(c, pending, k - 1); }
  }

  /** The refusal of what still waits when the run ends. */
  function LeftoverOf(c: Candle, p: Pending): Event
  {
    Decided(Rejection(p.decision.signal), Some(c.close), c.closeTime)
  }

  function Leftovers(c: Candle, pending: seq<Pending>, k: nat): (events: seq<Event>)
    requires k <= |pending|
    ensures |events| == k
  {
    if k == 0 then [] else Leftovers(c, pending, k - 1) + [LeftoverOf(c, pending[k - 1])]
  }

  predicate FundsAt(cfg: BacktestConfig, c: Candle) { cfg.fundingRate != 0.0 && AtBoundary(c, cfg.fundingHours) }

  /** The candle's exits, funding on a boundary, and a valuation for the safety guard. */
  function Settling(cfg: BacktestConfig, c: Candle): seq<Event>
  {
    [CandleClosed(c)] + Funding(cfg, c) + [Marked(map[cfg.pair := c.close])]
  }

  function Funding(cfg: BacktestConfig, c: Candle): seq<Event>
  {
    if FundsAt(cfg, c) then [FundingPaid(map[c.pair := c.close], cfg.fundingRate)] else []
  }

  /** Some open position is closed at the candle's close. */
  ghost predicate Closing(e: Event, c: Candle, reason: Reason)
  {
    e.Decided? && e.market == Some(c.close) && e.ts == c.closeTime && exists p :: e.d == Forced(p, c, reason)
  }

  /** The day has lost its limit since it began with this base, and the override is off. */
  ghost predicate LossReached(cfg: BacktestConfig, base: real, a: Account)
  {
    Max(0.0, base - TradableEquity(cfg.broker, a)) >= cfg.LossLimit() && !a.overrideEnabled
  }

  /** What the guard is told about the first `k` decisions. */
  function Tries(c: Candle, input: CandleInputs, k: nat): (tries: seq<Watch>)
    requires k <= |input.decisions|
    ensures |tries| == k && forall i :: 0 <= i < k ==> tries[i] == Tried(input.decisions[i], c, input.atr)
  {
    if k == 0 then [] else Tries(c, input, k - 1) + [Tried(input.decisions[k - 1], c, input.atr)]
  }

  /** What the guard makes of a decision. */
  function Verdict(u: Setup, seen: seq<Watch>, d: Decision, c: Candle, atr: Option<real>): Decision
  {
    if Cooled(u, seen).Blocked(u.cfg, d, c, atr) then Rejection(d.signal) else d
  }

  /** What it makes of the candle's first `k` decisions, each tried after those before it. */
  function Verdicts(u: Setup, seen: seq<Watch>, c: Candle, input: CandleInputs, k: nat): (given: seq<Decision>)
    requires k <= |input.decisions|
    ensures |given| == k
  {
    if k == 0 then []
    else
      Verdicts(u, seen, c, input, k - 1)
      + [Verdict(u, seen + Tries(c, input, k - 1), input.decisions[k - 1], c, input.atr)]
  }

  lemma {:induction false} VerdictAt(u: Setup, seen: seq<Watch>, c: Candle, input: CandleInputs, k: nat, i: nat)
    requires i < k <= |input.decisions|
    ensures Verdicts(u, seen, c, input, k)[i] == Verdict(u, seen + Tries(c, input, i), input.decisions[i], c, input.atr)
  {
    if i < k - 1 { VerdictAt(u, seen, c, input, k - 1, i); }
  }

  /** The decisions that are put off. */
  function Puts(given: seq<Decision>, n: nat, c: Candle): seq<Deferral>
  {
    if given == [] then []
    else
      var k := |given| - 1;
      if Defers(given[k]) then Puts(given[..k], n, c) + [Deferral(given[k], c.closeTime, n, k)]
        else Puts(given[..k], n, c)
  }

  /** The others are executed at the close, where the broker refuses them. */
  function Refusals(given: seq<Decision>, c: Candle): seq<Event>
  {
    if given == [] then []
    else
      var k := |given| - 1;
      if Defers(given[k]) then Refusals(given[..k], c)
      else Refusals(given[..k], c) + [Decided(given[k], Some(c.close), c.closeTime)]
  }

  function Managing(cfg: BacktestConfig, c: Candle, input: CandleInputs): seq<Event>
  {
    if cfg.dynamicExits then [ExitsManaged(c, input.atr, cfg.exits, input.band)] else []
  }

  /** The guard of a run. */
  function GuardOf(cfg: BacktestConfig): (u: Setup)
    ensures u.cfg == cfg.safety && u.peak == cfg.broker.startingEquity
    ensures forall n: int :: u.span(n) == n * cfg.intervalMs && u.reentrySpan(n) == n * cfg.intervalMs
  {
    Setup(cfg.safety, Span(cfg.intervalMs), Span(cfg.intervalMs), cfg.broker.startingEquity)
  }

  // ------------------------------------------------------------------ the phases of a candle

  ghost predicate Opened(sc: Scenario, n: nat, begun: bool, pending: seq<Pending>, s: Story, t: Story)
    requires sc.Covers(n)
  {
    Passed(s, t, Opening(sc.cfg, sc.candles[n], begun, pending))
  }

  /** After its exits and funding, the candle and the equity at its close are shown to the guard. */
  ghost predicate Settled(sc: Scenario, n: nat, s: Story, t: Story)
    requires sc.Covers(n)
  {
    forall k :: k == n ==> SettledAt(sc, k, s, t)
  }

  ghost predicate SettledAt(sc: Scenario, n: nat, s: Story, t: Story)
    requires sc.Covers(n)
  {
    && Adds(s.journal, t.journal, Settling(sc.cfg, sc.candles[n])) && t.deferred == s.deferred
    && |t.seen| > |s.seen| && OnlyTrades(s.seen, t.seen[..|t.seen| - 1])
    && t.seen[|t.seen| - 1] == SawCandle(sc.candles[n], Equity(sc.cfg.broker, t.Now(sc.cfg.broker)))
  }

  /**
   * The account is valued at the close. If the day has lost its limit, everything is closed,
   * which takes a positive close.
   */
  ghost predicate Switched(sc: Scenario, n: nat, base: real, fired: set<nat>, s: Story, t: Story)
    requires sc.Covers(n)
  {
    forall k :: k == n ==> SwitchedAt(sc, k, base, fired, s, t)
  }

  ghost predicate SwitchedAt(sc: Scenario, n: nat, base: real, fired: set<nat>, s: Story, t: Story)
    requires sc.Covers(n)
  {
    var c, from := sc.candles[n], |s.journal|;
    && OnlyTrades(s.seen, t.seen) && t.deferred == s.deferred
    && from < |t.journal| && t.journal[..from] == s.journal && t.journal[from].event == Marked(map[c.pair := c.close])
    && (n in fired <==> LossReached(sc.cfg, base, AccountAt(sc.cfg.broker, t.journal, from + 1)))
    && (n !in fired ==> |t.journal| == from + 1)
    && (forall x :: from < x < |t.journal| ==> Closing(t.journal[x].event, c, KillSwitch))
    && (n in fired ==>
          t.Now(sc.cfg.broker).positions == if c.close > 0.0 then map[] else s.Now(sc.cfg.broker).positions)
  }

  /** What the first `k` decisions of the candle have led to. */
  ghost predicate Triaged(sc: Scenario, n: nat, k: nat, s: Story, t: Story)
    requires sc.Covers(n) && k <= |sc.inputs[n].decisions|
  {
    forall done :: done == k ==> TriagedAt(sc, n, done, s, t)
  }

  ghost predicate TriagedAt(sc: Scenario, n: nat, k: nat, s: Story, t: Story)
    requires sc.Covers(n) && k <= |sc.inputs[n].decisions|
  {
    var c, input := sc.candles[n], sc.inputs[n];
    var given := Verdicts(GuardOf(sc.cfg), s.seen, c, input, k);
    && Adds(s.journal, t.journal, Refusals(given, c)) && t.seen == s.seen + Tries(c, input, k)
    && t.deferred == s.deferred + Puts(given, n, c)
  }

  /** Unless the day is halted, stops are managed and every decision is put off or refused. */
  ghost predicate Handled(sc: Scenario, n: nat, fired: set<nat>, s: Story, t: Story)
    requires sc.Covers(n)
  {
    forall k :: k == n ==> HandledAt(sc, k, fired, s, t)
  }

  ghost predicate HandledAt(sc: Scenario, n: nat, fired: set<nat>, s: Story, t: Story)
    requires sc.Covers(n)
  {
    var c, input := sc.candles[n], sc.inputs[n];
    if HaltedAt(sc.candles, fired, n) then t == s
    else
      var given := Verdicts(GuardOf(sc.cfg), s.seen, c, input, |input.decisions|);
      && Adds(s.journal, t.journal, Managing(sc.cfg, c, input) + Refusals(given, c))
      && t.seen == s.seen + Tries(c, input, |input.decisions|) && t.deferred == s.deferred + Puts(given, n, c)
  }

  /** After that, the equity is read at the close. */
  ghost predicate Dealt(sc: Scenario, n: nat, fired: set<nat>, s: Story, t: Story)
    requires sc.Covers(n)
  {
    var last := |t.journal| - 1;
    && last >= 0 && t.journal[last].event == Marked(map[sc.candles[n].pair := sc.candles[n].close])
    && Handled(sc, n, fired, s, t.(journal := t.journal[..last]))
  }

  /** Everything open was closed, as far as a positive close allows. */
  ghost predicate ClosedOut(s: Story, t: Story, c: Candle, reason: Reason)
  {
    && OnlyTrades(s.seen, t.seen) && t.deferred == s.deferred
    && forall x: nat :: ClosedAt(s.journal, t.journal, c, reason, x)
  }

  ghost predicate ClosedAt(before: seq<Call>, after: seq<Call>, c: Candle, reason: Reason, x: nat)
  {
    && (x < |before| ==> x < |after| && after[x] == before[x])
    && (|before| <= x < |after| ==> Closing(after[x].event, c, reason))
  }

  lemma ClosedOne(s: Story, t: Story, u: Story, c: Candle, reason: Reason, p: Position)
    requires ClosedOut(s, t, c, reason) && Passed(t, u, [Decided(Forced(p, c, reason), Some(c.close), c.closeTime)])
    ensures ClosedOut(s, u, c, reason)
  {
    var e := Decided(Forced(p, c, reason), Some(c.close), c.closeTime);
    TradesOn(s.seen, t.seen, u.seen);
    forall x: nat ensures ClosedAt(s.journal, u.journal, c, reason, x) {
      assert AddedAt(t.journal, u.journal, [e], x) && ClosedAt(s.journal, t.journal, c, reason, x);
    }
  }

  /** One more decision is put off or refused after those before it. */
  lemma OneMore(given: seq<Decision>, g: Decision, n: nat, c: Candle)
    ensures Puts(given + [g], n, c) ==
      Puts(given, n, c) + (if Defers(g) then [Deferral(g, c.closeTime, n, |given|)] else [])
    ensures Refusals(given + [g], c) ==
      Refusals(given, c) + (if Defers(g) then [] else [Decided(g, Some(c.close), c.closeTime)])
  {
    assert (given + [g])[..|given|] == given;
  }

  /** The candle's `k`-th decision is put off. */
  lemma TriagedPut(sc: Scenario, n: nat, k: nat, s: Story, t: Story, u: Story, g: Decision)
    requires sc.Covers(n) && k < |sc.inputs[n].decisions| && Triaged(sc, n, k, s, t) && Defers(g)
    requires g == Verdict(GuardOf(sc.cfg), t.seen, sc.inputs[n].decisions[k], sc.candles[n], sc.inputs[n].atr)
    requires u.journal == t.journal && u.deferred == t.deferred + [Deferral(g, sc.candles[n].closeTime, n, k)]
    requires u.seen == t.seen + [Tried(sc.inputs[n].decisions[k], sc.candles[n], sc.inputs[n].atr)]
    ensures Triaged(sc, n, k + 1, s, u)
  {
    assert TriagedAt(sc, n, k, s, t);
    OneMore(Verdicts(GuardOf(sc.cfg), s.seen, sc.candles[n], sc.inputs[n], k), g, n, sc.candles[n]);
  }

  /** The candle's `k`-th decision is refused. */
  lemma TriagedOut(sc: Scenario, n: nat, k: nat, s: Story, t: Story, u: Story, g: Decision)
    requires sc.Covers(n) && k < |sc.inputs[n].decisions| && Triaged(sc, n, k, s, t) && !Defers(g)
    requires g == Verdict(GuardOf(sc.cfg), t.seen, sc.inputs[n].decisions[k], sc.candles[n], sc.inputs[n].atr)
    requires Adds(t.journal, u.journal, [Decided(g, Some(sc.candles[n].close), sc.candles[n].closeTime)])
    requires u.seen == t.seen + [Tried(sc.inputs[n].decisions[k], sc.candles[n], sc.inputs[n].atr)]
      && u.deferred == t.deferred
    ensures Triaged(sc, n, k + 1, s, u)
  {
    assert TriagedAt(sc, n, k, s, t);
    var c := sc.candles[n];
    var given := Verdicts(GuardOf(sc.cfg), s.seen, c, sc.inputs[n], k);
    OneMore(given, g, n, c);
    AddsOn(s.journal, t.journal, u.journal, Refusals(given, c), [Decided(g, Some(c.close), c.closeTime)]);
  }

  /** The phases up to the kill switch, of the candle after these pages. */
  ghost predicate Begins(sc: Scenario, pages: seq<Page>, waiting: seq<Pending>, fired: set<nat>, a: Story, b: Story,
                         c: Story, d: Story)
    requires sc.Covers(|pages|)
  {
    forall k :: k == |pages| ==>
      && Opened(sc, k, BegunBefore(sc.candles, k), waiting, a, b) && Settled(sc, k, b, c)
      && Switched(sc, k, BaseToday(sc, a, pages), fired, c, d)
  }

  lemma BeginsOn(sc: Scenario, pages: seq<Page>, waiting: seq<Pending>, fired: set<nat>, begun: bool, base: real,
                 a: Story, b: Story, c: Story, d: Story)
    requires sc.Covers(|pages|) && begun == BegunBefore(sc.candles, |pages|) && base == BaseToday(sc, a, pages)
    requires Opened(sc, |pages|, begun, waiting, a, b) && Settled(sc, |pages|, b, c)
    requires Switched(sc, |pages|, base, fired, c, d)
    ensures Begins(sc, pages, waiting, fired, a, b, c, d)
  {
  }

  lemma HandledNothing(sc: Scenario, n: nat, fired: set<nat>, s: Story)
    requires sc.Covers(n) && HaltedAt(sc.candles, fired, n)
    ensures Handled(sc, n, fired, s, s)
  {
  }

  lemma SettledOn(sc: Scenario, n: nat, s: Story, m: Story, t: Story)
    requires sc.Covers(n) && Passed(s, m, [CandleClosed(sc.candles[n])] + Funding(sc.cfg, sc.candles[n]))
    requires Passed(m, t.(seen := m.seen), [Marked(map[sc.cfg.pair := sc.candles[n].close])])
    requires t.seen == m.seen + [SawCandle(sc.candles[n], Equity(sc.cfg.broker, t.Now(sc.cfg.broker)))]
    ensures Settled(sc, n, s, t)
  {
    var c := sc.candles[n];
    AddsOn(s.journal, m.journal, t.journal, [CandleClosed(c)] + Funding(sc.cfg, c),
           [Marked(map[sc.cfg.pair := c.close])]);
    AddsCount(s.journal, m.journal, [CandleClosed(c)] + Funding(sc.cfg, c));
    TradesBehind(s.seen, m.seen);
    assert t.seen[..|t.seen| - 1] == m.seen;
  }

  lemma SwitchedOn(sc: Scenario, n: nat, base: real, fired: set<nat>, s: Story, m: Story, t: Story)
    requires sc.Covers(n) && Passed(s, m, [Marked(map[sc.candles[n].pair := sc.candles[n].close])])
    requires n in fired <==> LossReached(sc.cfg, base, m.Now(sc.cfg.broker))
    requires if n in fired then ClosedOut(m, t, sc.candles[n], KillSwitch) else t == m
    requires n in fired ==>
      t.Now(sc.cfg.broker).positions == if sc.candles[n].close > 0.0 then map[] else s.Now(sc.cfg.broker).positions
    ensures Switched(sc, n, base, fired, s, t)
  {
    var c, from := sc.candles[n], |s.journal|;
    var mark := [Marked(map[c.pair := c.close])];
    AddsBehind(s.journal, m.journal, mark);
    assert AddedAt(s.journal, m.journal, mark, from);
    TradesRefl(m.seen);
    if n in fired {
      assert ClosedAt(m.journal, t.journal, c, KillSwitch, from)
        && ClosedAt(m.journal, t.journal, c, KillSwitch, |t.journal|);
      TradesOn(s.seen, m.seen, t.seen);
      forall x: nat | x < |t.journal|
        ensures x <= from ==> t.journal[x] == m.journal[x]
        ensures from < x ==> Closing(t.journal[x].event, c, KillSwitch)
      {
        assert ClosedAt(m.journal, t.journal, c, KillSwitch, x);
      }
    }
  }

  lemma HandledOn(sc: Scenario, n: nat, fired: set<nat>, s: Story, m: Story, t: Story)
    requires sc.Covers(n) && Passed(s, m, Managing(sc.cfg, sc.candles[n], sc.inputs[n])) && m.seen == s.seen
    requires Triaged(sc, n, |sc.inputs[n].decisions|, m, t) && !HaltedAt(sc.candles, fired, n)
    ensures Handled(sc, n, fired, s, t)
  {
    var c, input := sc.candles[n], sc.inputs[n];
    assert TriagedAt(sc, n, |input.decisions|, m, t);
    var given := Verdicts(GuardOf(sc.cfg), m.seen, c, input, |input.decisions|);
    AddsOn(s.journal, m.journal, t.journal, Managing(sc.cfg, c, input), Refusals(given, c));
  }

  lemma DealtOn(sc: Scenario, n: nat, fired: set<nat>, s: Story, m: Story, t: Story)
    requires sc.Covers(n) && Handled(sc, n, fired, s, m) && t.seen == m.seen
    requires Passed(m, t, [Marked(map[sc.candles[n].pair := sc.candles[n].close])])
    ensures Dealt(sc, n, fired, s, t)
  {
    var mark := [Marked(map[sc.candles[n].pair := sc.candles[n].close])];
    assert AddedAt(m.journal, t.journal, mark, |m.journal|);
    AddsBehind(m.journal, t.journal, mark);
    assert t.(journal := t.journal[..|t.journal| - 1]) == m;
  }

  lemma TriagedNone(sc: Scenario, n: nat, s: Story)
    requires sc.Covers(n)
    ensures Triaged(sc, n, 0, s, s)
  {
    PassedNothing(s);
  }

  // ------------------------------------------------------------------ pages

  /** Where the phases of one candle begin and end, and what was pending before and after it. */
  datatype Page = Page(start: Spot, filled: Spot, settled: Spot, switched: Spot, closed: Spot,
                       waiting: seq<Pending>, left: seq<Pending>)

  function StartOf(pages: seq<Page>, k: nat): Spot
    requires k <= |pages|
  {
    if k == 0 then Spot(0, 0, 0) else pages[k - 1].closed
  }

  function PendingAt(pages: seq<Page>, k: nat): seq<Pending>
    requires k <= |pages|
  {
    if k == 0 then [] else pages[k - 1].left
  }

  /** The first candle from `i` on with the day of candle `k`. */
  function FirstSince(candles: seq<Candle>, i: nat, k: nat): (first: nat)
    requires i <= k < |candles|
    ensures i <= first <= k && Day(candles[first].closeTime) == Day(candles[k].closeTime)
    ensures forall j :: i <= j < first ==> Day(candles[j].closeTime) != Day(candles[k].closeTime)
    decreases k - i
  {
    if Day(candles[i].closeTime) == Day(candles[k].closeTime) then i else FirstSince(candles, i + 1, k)
  }

  function FirstOfDay(candles: seq<Candle>, k: nat): (first: nat)
    requires k < |candles|
    ensures first <= k
  {
    FirstSince(candles, 0, k)
  }

  /** The candle is not the first of its day. */
  predicate BegunBefore(candles: seq<Candle>, k: nat)
    requires k < |candles|
  {
    FirstOfDay(candles, k) < k
  }

  lemma SameFirst(candles: seq<Candle>, i: nat, k: nat)
    requires i <= k < |candles|
    ensures Day(candles[i].closeTime) == Day(candles[k].closeTime) ==> FirstOfDay(candles, i) == FirstOfDay(candles, k)
    ensures (forall j :: 0 <= j < k ==> Day(candles[j].closeTime) != Day(candles[k].closeTime)) <==>
      FirstOfDay(candles, k) == k
  {
  }

  /** The tradable base when the day of candle `k` began. */
  function BaseOf(sc: Scenario, s: Story, pages: seq<Page>, k: nat): real
    requires k < |pages| <= |sc.candles|
  {
    var first := pages[FirstOfDay(sc.candles, k)].start.calls;
    if first <= |s.journal| then AccountAt(sc.cfg.broker, s.journal, first).tradableBase else 0.0
  }

  ghost predicate Ordered(s: Story, p: Page)
  {
    s.Reaches(p.start) && s.Reaches(p.filled) && s.Reaches(p.settled) && s.Reaches(p.switched) && s.Reaches(p.closed)
  }

  /** The candle's page tells what happened on it. */
  ghost predicate PageOk(sc: Scenario, s: Story, fired: set<nat>, pages: seq<Page>, k: nat)
    requires k < |pages| <= |sc.candles| == |sc.inputs|
  {
    var p, c := pages[k], sc.candles[k];
    && Ordered(s, p) && p.start == StartOf(pages, k) && p.waiting == PendingAt(pages, k)
    && Opened(sc, k, BegunBefore(sc.candles, k), p.waiting, s.Upto(p.start), s.Upto(p.filled))
    && Settled(sc, k, s.Upto(p.filled), s.Upto(p.settled))
    && Switched(sc, k, BaseOf(sc, s, pages, k), fired, s.Upto(p.settled), s.Upto(p.switched))
    && Dealt(sc, k, fired, s.Upto(p.switched), s.Upto(p.closed))
    && p.left == Left(c, p.waiting, |p.waiting|) + Queue(s.deferred[..p.closed.deferred], p.start.deferred)
  }

  /** The decisions put off from some point on, as pending ones. */
  function Queue(deferred: seq<Deferral>, from: nat): seq<Pending>
  {
    if |deferred| <= from then []
    else
      var d := deferred[|deferred| - 1];
      Queue(deferred[..|deferred| - 1], from) + [Pending(d.decision, d.generatedAt)]
  }

  /** What has been put off in the meantime now waits behind the rest: stated for every equal `k`, as above. */
  ghost predicate PutAlike(before: seq<Deferral>, after: seq<Deferral>, waiting: seq<Pending>, left: seq<Pending>)
  {
    forall k :: k == |before| ==> k <= |after| && after[..k] == before && left == waiting + Queue(after, k)
  }

  lemma NonePut(deferred: seq<Deferral>, waiting: seq<Pending>)
    ensures PutAlike(deferred, deferred, waiting, waiting)
  {
  }

  lemma OnePut(deferred: seq<Deferral>, d: Deferral, waiting: seq<Pending>)
    ensures PutAlike(deferred, deferred + [d], waiting, waiting + [Pending(d.decision, d.generatedAt)])
  {
    assert Queue(deferred + [d], |deferred|) == [Pending(d.decision, d.generatedAt)];
  }

  lemma MorePut(before: seq<Deferral>, between: seq<Deferral>, after: seq<Deferral>, waiting: seq<Pending>,
                still: seq<Pending>, left: seq<Pending>)
    requires PutAlike(before, between, waiting, still) && PutAlike(between, after, still, left)
    ensures PutAlike(before, after, waiting, left)
  {
    assert Queue(between, |before|) == Queue(between, |before|) && Queue(after, |between|) == Queue(after, |between|);
    QueueOn(between, after, |before|);
    assert after[..|before|] == after[..|between|][..|before|];
  }

  lemma {:induction false} QueueOn(before: seq<Deferral>, after: seq<Deferral>, from: nat)
    requires from <= |before| <= |after| && after[..|before|] == before
    ensures Queue(after, from) == Queue(before, from) + Queue(after, |before|)
  {
    if |before| == |after| {
      assert after == before;
    } else {
      assert after[..|after| - 1][..|before|] == before;
      QueueOn(before, after[..|after| - 1], from);
    }
  }

  ghost predicate PagesOk(sc: Scenario, s: Story, fired: set<nat>, pages: seq<Page>)
  {
    |pages| <= |sc.candles| == |sc.inputs| && forall k :: 0 <= k < |pages| ==> PageOk(sc, s, fired, pages, k)
  }

  // ------------------------------------------------------------------ turning a page

  lemma OpenedGrows(sc: Scenario, n: nat, begun: bool, pending: seq<Pending>, s: Story, t: Story)
    requires sc.Covers(n) && Opened(sc, n, begun, pending, s, t)
    ensures Grows(s, t)
  {
    AddsBehind(s.journal, t.journal, Opening(sc.cfg, sc.candles[n], begun, pending));
    TradesBehind(s.seen, t.seen);
  }

  lemma SettledGrows(sc: Scenario, n: nat, s: Story, t: Story)
    requires sc.Covers(n) && Settled(sc, n, s, t)
    ensures Grows(s, t)
  {
    assert SettledAt(sc, n, s, t);
    AddsBehind(s.journal, t.journal, Settling(sc.cfg, sc.candles[n]));
    TradesBehind(s.seen, t.seen[..|t.seen| - 1]);
    assert t.seen[..|s.seen|] == t.seen[..|t.seen| - 1][..|s.seen|];
  }

  lemma SwitchedGrows(sc: Scenario, n: nat, base: real, fired: set<nat>, s: Story, t: Story)
    requires sc.Covers(n) && Switched(sc, n, base, fired, s, t)
    ensures Grows(s, t)
  {
    assert SwitchedAt(sc, n, base, fired, s, t);
    TradesBehind(s.seen, t.seen);
  }

  lemma DealtGrows(sc: Scenario, n: nat, fired: set<nat>, s: Story, t: Story)
    requires sc.Covers(n) && Dealt(sc, n, fired, s, t)
    ensures Grows(s, t)
  {
    var c, input := sc.candles[n], sc.inputs[n];
    var journal := t.journal[..|t.journal| - 1];
    assert HandledAt(sc, n, fired, s, t.(journal := journal));
    if !HaltedAt(sc.candles, fired, n) {
      var given := Verdicts(GuardOf(sc.cfg), s.seen, c, input, |input.decisions|);
      AddsBehind(s.journal, journal, Managing(sc.cfg, c, input) + Refusals(given, c));
    }
    assert t.journal[..|s.journal|] == journal[..|s.journal|];
  }

  lemma PhasesGrow(sc: Scenario, n: nat, begun: bool, pending: seq<Pending>, base: real, fired: set<nat>, a: Story,
                   b: Story, c: Story, d: Story, e: Story)
    requires sc.Covers(n) && Opened(sc, n, begun, pending, a, b) && Settled(sc, n, b, c)
    requires Switched(sc, n, base, fired, c, d) && Dealt(sc, n, fired, d, e)
    ensures Grows(a, b) && Grows(b, c) && Grows(c, d) && Grows(d, e) && Grows(c, e) && Grows(b, e) && Grows(a, e)
  {
    OpenedGrows(sc, n, begun, pending, a, b);
    SettledGrows(sc, n, b, c);
    SwitchedGrows(sc, n, base, fired, c, d);
    DealtGrows(sc, n, fired, d, e);
    GrowsOn(c, d, e);
    GrowsOn(b, c, e);
    GrowsOn(a, b, e);
  }

  lemma PrefixKept(pages: seq<Page>, more: seq<Page>, k: nat)
    requires k < |pages| <= |more| && more[..|pages|] == pages
    ensures more[k] == pages[k] && StartOf(more, k) == StartOf(pages, k) && PendingAt(more, k) == PendingAt(pages, k)
  {
    assert more[..|pages|][k] == pages[k];
    assert k > 0 ==> more[..|pages|][k - 1] == pages[k - 1];
  }

  lemma BaseKept(sc: Scenario, s: Story, t: Story, fired: set<nat>, pages: seq<Page>, more: seq<Page>, k: nat)
    requires PagesOk(sc, s, fired, pages) && Grows(s, t) && k < |pages| <= |more| <= |sc.candles|
      && more[..|pages|] == pages
    ensures BaseOf(sc, t, more, k) == BaseOf(sc, s, pages, k)
  {
    var first := FirstOfDay(sc.candles, k);
    PrefixKept(pages, more, first);
    assert PageOk(sc, s, fired, pages, first);
    AccountKept(sc.cfg.broker, s, t, pages[first].start.calls);
  }

  lemma AccountKept(cfg: BrokerConfig, s: Story, t: Story, x: nat)
    requires Grows(s, t) && x <= |s.journal|
    ensures x <= |t.journal| && AccountAt(cfg, t.journal, x) == AccountAt(cfg, s.journal, x)
  {
    assert x > 0 ==> t.journal[x - 1] == t.Upto(s.End()).journal[x - 1];
  }

  lemma QueueKept(s: Story, t: Story, p: Spot)
    requires Grows(s, t) && s.Reaches(p)
    ensures t.Reaches(p) && t.deferred[..p.deferred] == s.deferred[..p.deferred]
  {
    UptoKept(s, t, p);
    assert t.Upto(p).deferred == s.Upto(p).deferred;
  }

  /** What has been written stays as it is. */
  lemma PageKept(sc: Scenario, s: Story, t: Story, fired: set<nat>, later: set<nat>, pages: seq<Page>,
                 more: seq<Page>, k: nat)
    requires PagesOk(sc, s, fired, pages) && Grows(s, t) && k < |pages| <= |more| <= |sc.candles|
      && more[..|pages|] == pages
    requires later == fired || later == fired + {|pages|}
    ensures PageOk(sc, t, later, more, k)
  {
    assert PageOk(sc, s, fired, pages, k);
    var q := pages[k];
    UptoKept(s, t, q.start);
    UptoKept(s, t, q.filled);
    UptoKept(s, t, q.settled);
    UptoKept(s, t, q.switched);
    UptoKept(s, t, q.closed);
    PrefixKept(pages, more, k);
    BaseKept(sc, s, t, fired, pages, more, k);
    QueueKept(s, t, q.closed);
    SwitchKept(sc, fired, later, |pages|, k, BaseOf(sc, s, pages, k), s.Upto(q.settled), s.Upto(q.switched));
    DealtKept(sc, fired, later, |pages|, k, s.Upto(q.switched), s.Upto(q.closed));
  }

  lemma SwitchKept(sc: Scenario, fired: set<nat>, later: set<nat>, n: nat, k: nat, base: real, s: Story, t: Story)
    requires sc.Covers(k) && k < n && (later == fired || later == fired + {n}) && Switched(sc, k, base, fired, s, t)
    ensures Switched(sc, k, base, later, s, t)
  {
    assert SwitchedAt(sc, k, base, fired, s, t);
  }

  lemma DealtKept(sc: Scenario, fired: set<nat>, later: set<nat>, n: nat, k: nat, s: Story, t: Story)
    requires sc.Covers(k) && k < n && (later == fired || later == fired + {n}) && Dealt(sc, k, fired, s, t)
    ensures Dealt(sc, k, later, s, t)
  {
    assert HandledAt(sc, k, fired, s, t.(journal := t.journal[..|t.journal| - 1]));
    assert HaltedAt(sc.candles, later, k) <==> HaltedAt(sc.candles, fired, k);
  }

  /** The base of the candle about to be processed. */
  function BaseToday(sc: Scenario, s: Story, pages: seq<Page>): real
    requires |pages| < |sc.candles|
  {
    var first := FirstOfDay(sc.candles, |pages|);
    if first == |pages| then s.Now(sc.cfg.broker).tradableBase else BaseOf(sc, s, pages, first)
  }

  lemma BaseIsToday(sc: Scenario, a: Story, e: Story, fired: set<nat>, pages: seq<Page>, p: Page)
    requires PagesOk(sc, a, fired, pages) && |pages| < |sc.candles| && Grows(a, e) && p.start == a.End()
    ensures BaseOf(sc, e, pages + [p], |pages|) == BaseToday(sc, a, pages)
  {
    var n := |pages|;
    var first := FirstOfDay(sc.candles, n);
    if first == n {
      AccountKept(sc.cfg.broker, a, e, |a.journal|);
    } else {
      SameFirst(sc.candles, first, n);
      BaseKept(sc, a, e, fired, pages, pages + [p], first);
    }
  }

  lemma PageFilled(sc: Scenario, fired: set<nat>, pages: seq<Page>, p: Page, a: Story, b: Story, c: Story, d: Story,
                   e: Story)
    requires sc.Covers(|pages|)
    requires StartOf(pages, |pages|) == a.End() && PendingAt(pages, |pages|) == p.waiting
    requires p == Page(a.End(), b.End(), c.End(), d.End(), e.End(), p.waiting, p.left)
    requires Grows(a, e) && Grows(b, e) && Grows(c, e) && Grows(d, e)
    requires Opened(sc, |pages|, BegunBefore(sc.candles, |pages|), p.waiting, a, b) && Settled(sc, |pages|, b, c)
    requires Switched(sc, |pages|, BaseOf(sc, e, pages + [p], |pages|), fired, c, d)
    requires Dealt(sc, |pages|, fired, d, e)
    requires p.left == Left(sc.candles[|pages|], p.waiting, |p.waiting|) + Queue(e.deferred, |a.deferred|)
    ensures PageOk(sc, e, fired, pages + [p], |pages|)
  {
    var more := pages + [p];
    assert e.Upto(e.End()) == e && e.deferred[..|e.deferred|] == e.deferred;
    assert StartOf(more, |pages|) == StartOf(pages, |pages|) && PendingAt(more, |pages|) == PendingAt(pages, |pages|);
  }

  /** The phases of a candle fill its page. */
  lemma PageWritten(sc: Scenario, fired: set<nat>, later: set<nat>, pages: seq<Page>, waiting: seq<Pending>,
                    left: seq<Pending>, a: Story, b: Story, c: Story, d: Story, e: Story)
    requires PagesOk(sc, a, fired, pages) && sc.Covers(|pages|)
    requires StartOf(pages, |pages|) == a.End() && PendingAt(pages, |pages|) == waiting
    requires later == fired || later == fired + {|pages|}
    requires Opened(sc, |pages|, BegunBefore(sc.candles, |pages|), waiting, a, b) && Settled(sc, |pages|, b, c)
    requires Switched(sc, |pages|, BaseToday(sc, a, pages), later, c, d)
    requires Dealt(sc, |pages|, later, d, e)
    requires left == Left(sc.candles[|pages|], waiting, |waiting|) + Queue(e.deferred, |a.deferred|)
    ensures PagesOk(sc, e, later, pages + [Page(a.End(), b.End(), c.End(), d.End(), e.End(), waiting, left)])
    ensures Grows(a, e)
  {
    var n, p := |pages|, Page(a.End(), b.End(), c.End(), d.End(), e.End(), waiting, left);
    PhasesGrow(sc, n, BegunBefore(sc.candles, n), waiting, BaseToday(sc, a, pages), later, a, b, c, d, e);
    BaseIsToday(sc, a, e, fired, pages, p);
    PageFilled(sc, later, pages, p, a, b, c, d, e);
    EarlierKept(sc, a, e, fired, later, pages, pages + [p]);
    LastPage(sc, e, later, pages, p);
  }

  lemma EarlierKept(sc: Scenario, s: Story, t: Story, fired: set<nat>, later: set<nat>, pages: seq<Page>,
                    more: seq<Page>)
    requires PagesOk(sc, s, fired, pages) && Grows(s, t) && |pages| <= |more| <= |sc.candles|
      && more[..|pages|] == pages
    requires later == fired || later == fired + {|pages|}
    ensures forall k :: 0 <= k < |pages| ==> PageOk(sc, t, later, more, k)
  {
    forall k | 0 <= k < |pages| ensures PageOk(sc, t, later, more, k) {
      PageKept(sc, s, t, fired, later, pages, more, k);
    }
  }

  lemma LastPage(sc: Scenario, s: Story, fired: set<nat>, pages: seq<Page>, p: Page)
    requires |pages| < |sc.candles| == |sc.inputs| && PageOk(sc, s, fired, pages + [p], |pages|)
    requires forall k :: 0 <= k < |pages| ==> PageOk(sc, s, fired, pages + [p], k)
    ensures PagesOk(sc, s, fired, pages + [p])
  {
  }

  // ------------------------------------------------------------------ the days

  /** The day of candle `k` has been given its base. */
  ghost predicate DayBegun(sc: Scenario, s: Story, pages: seq<Page>, dayStart: map<int, real>, k: nat)
    requires k < |pages| <= |sc.candles|
  {
    var day := Day(sc.candles[k].closeTime);
    day in dayStart && dayStart[day] == BaseOf(sc, s, pages, k)
  }

  ghost predicate DayVisited(candles: seq<Candle>, n: nat, day: int)
    requires n <= |candles|
  {
    exists k :: 0 <= k < n && Day(candles[k].closeTime) == day
  }

  /** The days begun so far are those of the candles so far, each with its base. */
  ghost predicate DaysOk(sc: Scenario, s: Story, pages: seq<Page>, dayStart: map<int, real>)
    requires |pages| <= |sc.candles|
  {
    && (forall k :: 0 <= k < |pages| ==> DayBegun(sc, s, pages, dayStart, k))
    && (forall day :: day in dayStart ==> DayVisited(sc.candles, |pages|, day))
  }

  /** The starting bases once the candle's day has begun. */
  function Begun(dayStart: map<int, real>, day: int, base: real): map<int, real>
  {
    if day in dayStart then dayStart else dayStart[day := base]
  }

  /** A day begins with its first candle, and keeps the base read then. */
  lemma DayBegins(sc: Scenario, s: Story, pages: seq<Page>, dayStart: map<int, real>)
    requires |pages| < |sc.candles| && DaysOk(sc, s, pages, dayStart)
    ensures var n, day := |pages|, Day(sc.candles[|pages|].closeTime);
      && (day in dayStart <==> BegunBefore(sc.candles, n))
      && Begun(dayStart, day, s.Now(sc.cfg.broker).tradableBase)[day] == BaseToday(sc, s, pages)
  {
    var n, day := |pages|, Day(sc.candles[|pages|].closeTime);
    SameFirst(sc.candles, n, n);
    var first := FirstOfDay(sc.candles, n);
    if first != n { assert DayBegun(sc, s, pages, dayStart, first); }
    if day in dayStart {
      assert DayVisited(sc.candles, n, day);
    }
  }

  lemma DaysOn(sc: Scenario, s: Story, t: Story, fired: set<nat>, pages: seq<Page>, p: Page, dayStart: map<int, real>)
    requires |pages| < |sc.candles| && PagesOk(sc, s, fired, pages) && DaysOk(sc, s, pages, dayStart)
    requires Grows(s, t) && p.start == s.End()
    ensures DaysOk(sc, t, pages + [p], Begun(dayStart, Day(sc.candles[|pages|].closeTime),
                                             s.Now(sc.cfg.broker).tradableBase))
  {
    var n, day, more := |pages|, Day(sc.candles[|pages|].closeTime), pages + [p];
    var later := Begun(dayStart, day, s.Now(sc.cfg.broker).tradableBase);
    DayBegins(sc, s, pages, dayStart);
    BaseIsToday(sc, s, t, fired, pages, p);
    forall k | 0 <= k < |more| ensures DayBegun(sc, t, more, later, k) {
      if k < n {
        assert DayBegun(sc, s, pages, dayStart, k);
        BaseKept(sc, s, t, fired, pages, more, k);
      }
    }
    forall d | d in later ensures DayVisited(sc.candles, n + 1, d) {
      if d == day {
        assert Day(sc.candles[n].closeTime) == d;
      } else {
        assert DayVisited(sc.candles, n, d);
      }
    }
  }

  // ------------------------------------------------------------------ the run so far

  /** Every candle so far has its page, the last one ends where the story does, and the days have their bases. */
  ghost predicate Told(sc: Scenario, s: Story, fired: set<nat>, pages: seq<Page>, dayStart: map<int, real>,
                       pending: seq<Pending>)
  {
    forall k :: k == |pages| ==> ToldUpto(sc, s, fired, pages, k, dayStart, pending)
  }

  ghost predicate ToldUpto(sc: Scenario, s: Story, fired: set<nat>, pages: seq<Page>, k: nat,
                           dayStart: map<int, real>, pending: seq<Pending>)
    requires k == |pages|
  {
    && PagesOk(sc, s, fired, pages) && StartOf(pages, k) == s.End() && PendingAt(pages, k) == pending
    && DaysOk(sc, s, pages, dayStart)
  }

  lemma ToldNothing(sc: Scenario)
    requires |sc.candles| == |sc.inputs|
    ensures Told(sc, Story([], [], []), {}, [], map[], [])
    ensures Plotted(sc, Story([], [], []), [], [])
  {
  }

  /** The day of the next candle. */
  lemma DayToday(sc: Scenario, s: Story, fired: set<nat>, pages: seq<Page>, dayStart: map<int, real>,
                 pending: seq<Pending>)
    requires |pages| < |sc.candles| && Told(sc, s, fired, pages, dayStart, pending)
    ensures var n, day := |pages|, Day(sc.candles[|pages|].closeTime);
      && (day in dayStart <==> BegunBefore(sc.candles, n))
      && Begun(dayStart, day, s.Now(sc.cfg.broker).tradableBase)[day] == BaseToday(sc, s, pages)
  {
    assert ToldUpto(sc, s, fired, pages, |pages|, dayStart, pending);
    DayBegins(sc, s, pages, dayStart);
  }

  /** One more candle, one more page. */
  lemma ToldOn(sc: Scenario, fired: set<nat>, later: set<nat>, pages: seq<Page>, dayStart: map<int, real>,
               waiting: seq<Pending>, left: seq<Pending>, a: Story, b: Story, c: Story, d: Story, e: Story)
    requires Told(sc, a, fired, pages, dayStart, waiting) && sc.Covers(|pages|)
    requires later == fired || later == fired + {|pages|}
    requires Begins(sc, pages, waiting, later, a, b, c, d)
    requires Dealt(sc, |pages|, later, d, e)
    requires left == Left(sc.candles[|pages|], waiting, |waiting|) + Queue(e.deferred, |d.deferred|)
    ensures Grows(a, e)
    ensures Told(sc, e, later, pages + [Page(a.End(), b.End(), c.End(), d.End(), e.End(), waiting, left)],
                 Begun(dayStart, Day(sc.candles[|pages|].closeTime), a.Now(sc.cfg.broker).tradableBase), left)
  {
    assert ToldUpto(sc, a, fired, pages, |pages|, dayStart, waiting);
    assert Settled(sc, |pages|, b, c);
    PhasesGrow(sc, |pages|, BegunBefore(sc.candles, |pages|), waiting, BaseToday(sc, a, pages), later, a, b, c, d, e);
    assert SettledAt(sc, |pages|, b, c) && SwitchedAt(sc, |pages|, BaseToday(sc, a, pages), later, c, d);
    PageWritten(sc, fired, later, pages, waiting, left, a, b, c, d, e);
    DaysOn(sc, a, e, fired, pages, Page(a.End(), b.End(), c.End(), d.End(), e.End(), waiting, left), dayStart);
  }

  /** Calls made after the last page change none. */
  lemma PagesKept(sc: Scenario, s: Story, t: Story, fired: set<nat>, pages: seq<Page>)
    requires PagesOk(sc, s, fired, pages) && Grows(s, t)
    ensures PagesOk(sc, t, fired, pages)
  {
    EarlierKept(sc, s, t, fired, fired, pages, pages);
  }

  // ------------------------------------------------------------------ the equity curve

  ghost function PointOf(cfg: BrokerConfig, c: Candle, a: Account): EquityPoint
  {
    EquityPoint(c.closeTime, c.close, Equity(cfg, a), |a.positions|)
  }

  /** The account when the candle's page was closed. */
  function AccountAfter(sc: Scenario, s: Story, pages: seq<Page>, k: nat): Account
    requires k < |pages|
  {
    if s.Reaches(pages[k].closed) then AccountAt(sc.cfg.broker, s.journal, pages[k].closed.calls)
      else Fresh(sc.cfg.broker)
  }

  ghost predicate PlottedAt(sc: Scenario, s: Story, pages: seq<Page>, curve: seq<EquityPoint>, k: nat)
    requires k < |curve| <= |pages| <= |sc.candles|
  {
    s.Reaches(pages[k].closed) && curve[k] == PointOf(sc.cfg.broker, sc.candles[k], AccountAfter(sc, s, pages, k))
  }

  /** Each equity point shows the account when its candle's page was closed. */
  ghost predicate Plotted(sc: Scenario, s: Story, pages: seq<Page>, curve: seq<EquityPoint>)
  {
    |curve| <= |pages| <= |sc.candles| && forall k :: 0 <= k < |curve| ==> PlottedAt(sc, s, pages, curve, k)
  }

  lemma PlottedOn(sc: Scenario, s: Story, t: Story, pages: seq<Page>, p: Page, curve: seq<EquityPoint>)
    requires Plotted(sc, s, pages, curve) && |curve| == |pages| < |sc.candles| && Grows(s, t) && p.closed == t.End()
    ensures Plotted(sc, t, pages + [p], curve + [PointOf(sc.cfg.broker, sc.candles[|pages|], t.Now(sc.cfg.broker))])
  {
    var more, points := pages + [p], curve + [PointOf(sc.cfg.broker, sc.candles[|pages|], t.Now(sc.cfg.broker))];
    forall k | 0 <= k < |points| ensures PlottedAt(sc, t, more, points, k) {
      if k < |curve| {
        assert PlottedAt(sc, s, pages, curve, k);
        AccountKept(sc.cfg.broker, s, t, pages[k].closed.calls);
      }
    }
  }

  /** All but the last point stand when the run goes on to its end. */
  lemma PlottedKept(sc: Scenario, s: Story, t: Story, pages: seq<Page>, curve: seq<EquityPoint>,
                    shown: seq<EquityPoint>)
    requires Plotted(sc, s, pages, curve) && Grows(s, t) && |shown| <= |curve| && shown == curve[..|shown|]
    ensures Plotted(sc, t, pages, shown)
  {
    forall k | 0 <= k < |shown| ensures PlottedAt(sc, t, pages, shown, k) {
      assert PlottedAt(sc, s, pages, curve, k);
      AccountKept(sc.cfg.broker, s, t, pages[k].closed.calls);
    }
  }

  // ------------------------------------------------------------------ the end of a run

  /** From here on, positions were closed because the run was over, and the account was valued. */
  ghost predicate WoundUp(s: Story, t: Story, c: Candle)
  {
    && OnlyTrades(s.seen, t.seen) && t.deferred == s.deferred
    && forall x: nat :: WoundAt(s.journal, t.journal, c, x)
  }

  ghost predicate WoundAt(before: seq<Call>, after: seq<Call>, c: Candle, x: nat)
  {
    && (x < |before| ==> x < |after| && after[x] == before[x])
    && (|before| <= x < |after| ==> after[x].event.Marked? || Closing(after[x].event, c, RunEnded))
  }

  /** What still waited was refused, and then the run was wound up. */
  ghost predicate Concluded(s: Story, t: Story, c: Candle, left: seq<Pending>)
  {
    var from := |s.journal| + |left|;
    && from <= |t.journal|
    && var m := s.(journal := t.journal[..from]);
    Passed(s, m, Leftovers(c, left, |left|)) && WoundUp(m, t, c)
  }

  lemma ConcludedFirst(s: Story, m: Story, c: Candle, left: seq<Pending>)
    requires Passed(s, m, Leftovers(c, left, |left|)) && m.seen == s.seen
    ensures Concluded(s, m, c, left)
  {
    AddsCount(s.journal, m.journal, Leftovers(c, left, |left|));
    assert m.journal[..|s.journal| + |left|] == m.journal && s.(journal := m.journal) == m;
    TradesRefl(m.seen);
    forall x: nat ensures WoundAt(m.journal, m.journal, c, x) {}
  }

  lemma ConcludedClosed(s: Story, m: Story, t: Story, c: Candle, left: seq<Pending>)
    requires Passed(s, m, Leftovers(c, left, |left|)) && m.seen == s.seen && ClosedOut(m, t, c, RunEnded)
    ensures Concluded(s, t, c, left)
  {
    AddsCount(s.journal, m.journal, Leftovers(c, left, |left|));
    forall x: nat ensures WoundAt(m.journal, t.journal, c, x) {
      assert ClosedAt(m.journal, t.journal, c, RunEnded, x);
    }
    forall x: nat | x < |m.journal| ensures x < |t.journal| && t.journal[x] == m.journal[x] {
      assert ClosedAt(m.journal, t.journal, c, RunEnded, x);
    }
    assert t.journal[..|s.journal| + |left|] == m.journal;
    assert s.(journal := m.journal) == m;
  }

  lemma ConcludedMarked(s: Story, t: Story, u: Story, c: Candle, left: seq<Pending>, prices: map<string, real>)
    requires Concluded(s, t, c, left) && Passed(t, u, [Marked(prices)])
    ensures Concluded(s, u, c, left)
  {
    var from := |s.journal| + |left|;
    var m := s.(journal := t.journal[..from]);
    AddsBehind(t.journal, u.journal, [Marked(prices)]);
    assert u.journal[..from] == u.journal[..|t.journal|][..from] == t.journal[..from];
    TradesOn(m.seen, t.seen, u.seen);
    forall x: nat ensures WoundAt(m.journal, u.journal, c, x) {
      assert AddedAt(t.journal, u.journal, [Marked(prices)], x) && WoundAt(m.journal, t.journal, c, x);
    }
  }

  lemma ConcludedGrows(s: Story, t: Story, c: Candle, left: seq<Pending>)
    requires Concluded(s, t, c, left)
    ensures Grows(s, t)
  {
    var from := |s.journal| + |left|;
    AddsBehind(s.journal, t.journal[..from], Leftovers(c, left, |left|));
    TradesBehind(s.seen, t.seen);
    assert t.journal[..|s.journal|] == t.journal[..from][..|s.journal|];
  }

  /**
   * Every candle has its page, the run was concluded after the last one, and the points were plotted from the
   * pages, but for the last one where it was taken again.
   */
  ghost predicate Complete(sc: Scenario, s: Story, fired: set<nat>, pages: seq<Page>, curve: seq<EquityPoint>)
  {
    && |pages| == |curve| == |sc.candles| == |sc.inputs| > 0 && PagesOk(sc, s, fired, pages)
    && var last := |pages| - 1;
    && s.Reaches(pages[last].closed) && Concluded(s.Upto(pages[last].closed), s, sc.candles[last], pages[last].left)
    && Plotted(sc, s, pages, curve[..last])
    && (AccountAfter(sc, s, pages, last).positions == map[] ==> PlottedAt(sc, s, pages, curve, last))
  }

  lemma CompleteRun(sc: Scenario, s: Story, t: Story, fired: set<nat>, pages: seq<Page>, dayStart: map<int, real>,
                    pending: seq<Pending>, curve: seq<EquityPoint>, shown: seq<EquityPoint>)
    requires |pages| == |curve| == |shown| == |sc.candles| > 0 && shown[..|curve| - 1] == curve[..|curve| - 1]
    requires Told(sc, s, fired, pages, dayStart, pending) && Plotted(sc, s, pages, curve)
    requires Concluded(s, t, sc.candles[|pages| - 1], pending)
    requires s.Now(sc.cfg.broker).positions == map[] ==> shown == curve
    ensures Complete(sc, t, fired, pages, shown)
    ensures AccountAfter(sc, t, pages, |pages| - 1) == s.Now(sc.cfg.broker)
  {
    var last := |pages| - 1;
    assert ToldUpto(sc, s, fired, pages, |pages|, dayStart, pending);
    ConcludedGrows(s, t, sc.candles[last], pending);
    PagesKept(sc, s, t, fired, pages);
    PlottedKept(sc, s, t, pages, curve, shown[..last]);
    AccountKept(sc.cfg.broker, s, t, |s.journal|);
    assert t.Upto(pages[last].closed) == s;
    if s.Now(sc.cfg.broker).positions == map[] {
      assert curve[..|curve|] == curve;
      PlottedKept(sc, s, t, pages, curve, curve);
      assert PlottedAt(sc, t, pages, curve, last);
    }
  }

  lemma LastPoint(sc: Scenario, s: Story, fired: set<nat>, pages: seq<Page>, dayStart: map<int, real>,
                  pending: seq<Pending>, curve: seq<EquityPoint>)
    requires Told(sc, s, fired, pages, dayStart, pending) && Plotted(sc, s, pages, curve) && |curve| == |pages| > 0
    ensures curve[|pages| - 1] == PointOf(sc.cfg.broker, sc.candles[|pages| - 1], s.Now(sc.cfg.broker))
  {
    assert ToldUpto(sc, s, fired, pages, |pages|, dayStart, pending);
    assert PlottedAt(sc, s, pages, curve, |pages| - 1);
  }

  /** One more candle: its page, its equity point, its day. */
  lemma PageTurned(sc: Scenario, before: set<nat>, fired: set<nat>, pages: seq<Page>, curve: seq<EquityPoint>,
                   dayStart: map<int, real>, waiting: seq<Pending>, left: seq<Pending>, a: Story, b: Story, c: Story,
                   d: Story, m: Story, e: Story)
      returns (page: Page)
    requires Told(sc, a, before, pages, dayStart, waiting) && Plotted(sc, a, pages, curve) && |curve| == |pages|
    requires sc.Covers(|pages|) && (fired == before || fired == before + {|pages|})
    requires Begins(sc, pages, waiting, fired, a, b, c, d) && Handled(sc, |pages|, fired, d, m) && e.seen == m.seen
    requires Passed(m, e, [Marked(map[sc.candles[|pages|].pair := sc.candles[|pages|].close])])
    requires PutAlike(d.deferred, e.deferred, Left(sc.candles[|pages|], waiting, |waiting|), left)
    ensures Told(sc, e, fired, pages + [page],
                 Begun(dayStart, Day(sc.candles[|pages|].closeTime), a.Now(sc.cfg.broker).tradableBase), left)
    ensures Plotted(sc, e, pages + [page], curve + [PointOf(sc.cfg.broker, sc.candles[|pages|], e.Now(sc.cfg.broker))])
  {
    assert Queue(e.deferred, |d.deferred|) == Queue(e.deferred, |d.deferred|);
    page := Page(a.End(), b.End(), c.End(), d.End(), e.End(), waiting, left);
    DealtOn(sc, |pages|, fired, d, m, e);
    ToldOn(sc, before, fired, pages, dayStart, waiting, left, a, b, c, d, e);
    PlottedOn(sc, a, e, pages, page, curve);
  }

  // ------------------------------------------------------------------ what the pages say

  /** The day has lost its limit when candle `k` is checked, against the base its day began with. */
  ghost predicate Lost(sc: Scenario, s: Story, pages: seq<Page>, k: nat)
    requires k < |pages| <= |sc.candles|
  {
    var check := pages[k].settled.calls;
    check < |s.journal| && LossReached(sc.cfg, BaseOf(sc, s, pages, k), AccountAt(sc.cfg.broker, s.journal, check + 1))
  }

  /**
   * The kill switch fires exactly where the day has lost its limit, with the account just valued at the candle's
   * close.
   */
  lemma FiredIffLost(sc: Scenario, s: Story, fired: set<nat>, pages: seq<Page>, k: nat)
    requires PagesOk(sc, s, fired, pages) && k < |pages|
    ensures k in fired <==> Lost(sc, s, pages, k)
    ensures pages[k].settled.calls < |s.journal|
    ensures s.journal[pages[k].settled.calls].event == Marked(map[sc.candles[k].pair := sc.candles[k].close])
  {
    assert PageOk(sc, s, fired, pages, k);
    var p := pages[k];
    assert SwitchedAt(sc, k, BaseOf(sc, s, pages, k), fired, s.Upto(p.settled), s.Upto(p.switched));
  }

  /** Every decision is put off or refused. */
  lemma {:induction false} PutOrRefused(given: seq<Decision>, n: nat, c: Candle)
    ensures |Puts(given, n, c)| + |Refusals(given, c)| == |given|
    ensures forall i :: 0 <= i < |Puts(given, n, c)| ==>
      Puts(given, n, c)[i].candle == n && Puts(given, n, c)[i].slot < |given|
  {
    if given != [] { PutOrRefused(given[..|given| - 1], n, c); }
  }

  lemma PutsLast(given: seq<Decision>, n: nat, c: Candle)
    requires given != []
    ensures var k := |given| - 1;
      Puts(given, n, c) ==
        Puts(given[..k], n, c) + (if Defers(given[k]) then [Deferral(given[k], c.closeTime, n, k)] else [])
  {
  }

  /** The `k`-th decision is put off once if it trades. */
  lemma {:induction false} PutOnce(given: seq<Decision>, n: nat, c: Candle, k: nat)
    requires k < |given|
    ensures var puts, i := Puts(given, n, c), |Puts(given[..k], n, c)|;
      && (forall j :: 0 <= j < |puts| ==> (puts[j].slot == k <==> Defers(given[k]) && j == i))
      && (Defers(given[k]) ==> i < |puts| && puts[i] == Deferral(given[k], c.closeTime, n, k))
  {
    var init := given[..|given| - 1];
    var puts, earlier, at := Puts(given, n, c), Puts(init, n, c), |Puts(given[..k], n, c)|;
    PutsLast(given, n, c);
    PutOrRefused(init, n, c);
    if k < |init| {
      assert init[..k] == given[..k] && init[k] == given[k];
      PutOnce(init, n, c, k);
      forall j | 0 <= j < |puts| ensures puts[j].slot == k <==> Defers(given[k]) && j == at {
        if j < |earlier| { assert puts[j] == earlier[j]; }
      }
    } else {
      assert given[..k] == init && at == |earlier|;
      forall j | 0 <= j < |puts| ensures puts[j].slot == k <==> Defers(given[k]) && j == at {
        if j < |earlier| { assert puts[j] == earlier[j]; }
      }
    }
  }

  /** Any other is refused once. */
  lemma {:induction false} RefusedOnce(given: seq<Decision>, c: Candle, k: nat)
    requires k < |given| && !Defers(given[k])
    ensures var refusals, i := Refusals(given, c), |Refusals(given[..k], c)|;
      i < |refusals| && refusals[i] == Decided(given[k], Some(c.close), c.closeTime)
  {
    var init := given[..|given| - 1];
    if k < |init| {
      assert init[..k] == given[..k];
      RefusedOnce(init, c, k);
    }
  }

  /** What the guard made of the candle's decisions, having seen what it had when the kill switch was checked. */
  function GivenOn(sc: Scenario, s: Story, pages: seq<Page>, n: nat): (given: seq<Decision>)
    requires n < |pages| <= |sc.candles| == |sc.inputs|
    ensures |given| == |sc.inputs[n].decisions|
  {
    var seen := if pages[n].switched.seen <= |s.seen| then s.seen[..pages[n].switched.seen] else s.seen;
    Verdicts(GuardOf(sc.cfg), seen, sc.candles[n], sc.inputs[n], |sc.inputs[n].decisions|)
  }

  /** Nothing is put off before the kill switch is checked. */
  lemma SameDeferred(sc: Scenario, n: nat, begun: bool, pending: seq<Pending>, base: real, fired: set<nat>, a: Story,
                     b: Story, c: Story, d: Story)
    requires sc.Covers(n) && Opened(sc, n, begun, pending, a, b) && Settled(sc, n, b, c)
      && Switched(sc, n, base, fired, c, d)
    ensures d.deferred == a.deferred
  {
    assert SettledAt(sc, n, b, c) && SwitchedAt(sc, n, base, fired, c, d);
  }

  lemma DealtSays(sc: Scenario, n: nat, fired: set<nat>, d: Story, e: Story)
    requires sc.Covers(n) && Dealt(sc, n, fired, d, e)
    ensures |e.journal| > 0
    ensures var c, input := sc.candles[n], sc.inputs[n];
      if HaltedAt(sc.candles, fired, n) then e.deferred == d.deferred && e.journal[..|e.journal| - 1] == d.journal
      else
        var given := Verdicts(GuardOf(sc.cfg), d.seen, c, input, |input.decisions|);
        && e.deferred == d.deferred + Puts(given, n, c)
        && Adds(d.journal, e.journal[..|e.journal| - 1], Managing(sc.cfg, c, input) + Refusals(given, c))
  {
    assert HandledAt(sc, n, fired, d, e.(journal := e.journal[..|e.journal| - 1]));
  }

  lemma PageOrdered(sc: Scenario, s: Story, fired: set<nat>, pages: seq<Page>, n: nat)
    requires PagesOk(sc, s, fired, pages) && n < |pages|
    ensures Ordered(s, pages[n]) && pages[n].start == StartOf(pages, n)
      && pages[n].start.deferred == pages[n].switched.deferred
    ensures Dealt(sc, n, fired, s.Upto(pages[n].switched), s.Upto(pages[n].closed))
  {
    assert PageOk(sc, s, fired, pages, n);
    var p := pages[n];
    SameDeferred(sc, n, BegunBefore(sc.candles, n), p.waiting, BaseOf(sc, s, pages, n), fired,
                 s.Upto(p.start), s.Upto(p.filled), s.Upto(p.settled), s.Upto(p.switched));
    assert |s.deferred[..p.start.deferred]| == |s.deferred[..p.switched.deferred]|;
  }

  lemma UptoLess(s: Story, p: Spot)
    requires s.Reaches(p) && p.calls > 0
    ensures s.Upto(p).journal[..|s.Upto(p).journal| - 1] == s.journal[..p.calls - 1]
    ensures |s.Upto(p).journal| == p.calls && |s.Upto(p).deferred| == p.deferred
  {
  }

  /** What a page says about its candle's decisions. */
  lemma HandledOnPage(sc: Scenario, s: Story, fired: set<nat>, pages: seq<Page>, n: nat)
    requires PagesOk(sc, s, fired, pages) && n < |pages|
    ensures var p, c := pages[n], sc.candles[n];
      && s.Reaches(p.start) && s.Reaches(p.switched) && s.Reaches(p.closed) && p.start == StartOf(pages, n)
      && p.closed.calls > 0 && p.start.deferred == p.switched.deferred
      && if HaltedAt(sc.candles, fired, n) then
           p.closed.deferred == p.switched.deferred && p.closed.calls == p.switched.calls + 1
         else
           && s.deferred[..p.closed.deferred] == s.deferred[..p.start.deferred] + Puts(GivenOn(sc, s, pages, n), n, c)
           && Adds(s.journal[..p.switched.calls], s.journal[..p.closed.calls - 1],
                   Managing(sc.cfg, c, sc.inputs[n]) + Refusals(GivenOn(sc, s, pages, n), c))
  {
    PageOrdered(sc, s, fired, pages, n);
    var p := pages[n];
    var d, e := s.Upto(p.switched), s.Upto(p.closed);
    DealtSays(sc, n, fired, d, e);
    UptoLess(s, p.closed);
    assert |d.journal| == p.switched.calls && |d.deferred| == p.switched.deferred;
  }

  /** Where the decisions put off on a candle stand. */
  lemma PutsOnPage(sc: Scenario, s: Story, fired: set<nat>, pages: seq<Page>, n: nat, id: nat)
    requires PagesOk(sc, s, fired, pages) && n < |pages|
    ensures var p := pages[n];
      && s.Reaches(p.closed) && p.start == StartOf(pages, n) && p.start.deferred <= p.closed.deferred
      && (p.start.deferred <= id < p.closed.deferred ==> !HaltedAt(sc.candles, fired, n) && s.deferred[id].candle == n)
  {
    HandledOnPage(sc, s, fired, pages, n);
    var p, puts := pages[n], Puts(GivenOn(sc, s, pages, n), n, sc.candles[n]);
    PutOrRefused(GivenOn(sc, s, pages, n), n, sc.candles[n]);
    if !HaltedAt(sc.candles, fired, n) {
      assert |s.deferred[..p.closed.deferred]| == |s.deferred[..p.start.deferred]| + |puts|;
      if p.start.deferred <= id < p.closed.deferred {
        assert s.deferred[..p.closed.deferred][id] == puts[id - p.start.deferred];
      }
    }
  }

  /** Every decision put off belongs to the candle on whose page it stands. */
  lemma {:induction false} PageOfPut(sc: Scenario, s: Story, fired: set<nat>, pages: seq<Page>, m: nat,
                                     id: nat) returns (n: nat)
    requires PagesOk(sc, s, fired, pages) && m <= |pages| && id < StartOf(pages, m).deferred
    ensures n < m && s.Reaches(pages[n].closed) && pages[n].start.deferred <= id < pages[n].closed.deferred
    ensures s.deferred[id].candle == n
  {
    PutsOnPage(sc, s, fired, pages, m - 1, id);
    if id >= StartOf(pages, m - 1).deferred {
      n := m - 1;
    } else {
      n := PageOfPut(sc, s, fired, pages, m - 1, id);
    }
  }

  /** The next decision to be put off on the candle after its first `k`. */
  function PutAt(sc: Scenario, s: Story, pages: seq<Page>, n: nat, k: nat): nat
    requires n < |pages| <= |sc.candles| == |sc.inputs| && k <= |sc.inputs[n].decisions|
  {
    pages[n].start.deferred + |Puts(GivenOn(sc, s, pages, n)[..k], n, sc.candles[n])|
  }

  /** The call that executes the next decision to be refused on the candle after its first `k`. */
  function RefusalAt(sc: Scenario, s: Story, pages: seq<Page>, n: nat, k: nat): nat
    requires n < |pages| <= |sc.candles| == |sc.inputs| && k <= |sc.inputs[n].decisions|
  {
    pages[n].switched.calls + |Managing(sc.cfg, sc.candles[n], sc.inputs[n])|
    + |Refusals(GivenOn(sc, s, pages, n)[..k], sc.candles[n])|
  }

  /** On a day that trades, a decision the guard lets pass is put off, exactly once. */
  lemma DecisionPutOff(sc: Scenario, s: Story, fired: set<nat>, pages: seq<Page>, n: nat, k: nat, id: nat)
    requires PagesOk(sc, s, fired, pages) && n < |pages| && k < |sc.inputs[n].decisions|
      && !HaltedAt(sc.candles, fired, n)
    ensures s.Reaches(pages[n].closed)
    ensures var p, d := pages[n], GivenOn(sc, s, pages, n)[k];
      && (p.start.deferred <= id < p.closed.deferred ==>
          (s.deferred[id].slot == k <==> Defers(d) && id == PutAt(sc, s, pages, n, k)))
      && (Defers(d) && id == PutAt(sc, s, pages, n, k) ==>
            id < p.closed.deferred && s.deferred[id] == Deferral(d, sc.candles[n].closeTime, n, k))
  {
    HandledOnPage(sc, s, fired, pages, n);
    var p, given := pages[n], GivenOn(sc, s, pages, n);
    var puts := Puts(given, n, sc.candles[n]);
    PutOnce(given, n, sc.candles[n], k);
    assert |s.deferred[..p.closed.deferred]| == |s.deferred[..p.start.deferred]| + |puts|;
    if p.start.deferred <= id < p.closed.deferred {
      assert s.deferred[..p.closed.deferred][id] == puts[id - p.start.deferred];
    }
  }

  /** Any other decision is executed at the close, in its place among the candle's calls. */
  lemma DecisionTurnedDown(sc: Scenario, s: Story, fired: set<nat>, pages: seq<Page>, n: nat, k: nat)
    requires PagesOk(sc, s, fired, pages) && n < |pages| && k < |sc.inputs[n].decisions|
      && !HaltedAt(sc.candles, fired, n)
    requires !Defers(GivenOn(sc, s, pages, n)[k])
    ensures s.Reaches(pages[n].closed)
    ensures var x := RefusalAt(sc, s, pages, n, k);
      && x < pages[n].closed.calls
      && s.journal[x].event == Decided(GivenOn(sc, s, pages, n)[k], Some(sc.candles[n].close), sc.candles[n].closeTime)
  {
    HandledOnPage(sc, s, fired, pages, n);
    var p, c, given := pages[n], sc.candles[n], GivenOn(sc, s, pages, n);
    var events := Managing(sc.cfg, c, sc.inputs[n]) + Refusals(given, c);
    RefusedOnce(given, c, k);
    AddsCount(s.journal[..p.switched.calls], s.journal[..p.closed.calls - 1], events);
    assert AddedAt(s.journal[..p.switched.calls], s.journal[..p.closed.calls - 1], events,
                   RefusalAt(sc, s, pages, n, k));
  }

  lemma {:induction false} PlacesRise(given: seq<Decision>, n: nat, c: Candle, k: nat, m: nat)
    requires k < m <= |given|
    ensures |Puts(given[..k], n, c)| + (if Defers(given[k]) then 1 else 0) <= |Puts(given[..m], n, c)|
    ensures |Refusals(given[..k], c)| + (if Defers(given[k]) then 0 else 1) <= |Refusals(given[..m], c)|
  {
    assert given[..m][..m - 1] == given[..m - 1];
    if k < m - 1 { PlacesRise(given, n, c, k, m - 1); }
  }

  /** Decisions are put off and refused in the order they are given, and the candle's page holds nothing besides. */
  lemma DecisionsOnPage(sc: Scenario, s: Story, fired: set<nat>, pages: seq<Page>, n: nat, k: nat, m: nat)
    requires PagesOk(sc, s, fired, pages) && n < |pages| && k < m <= |sc.inputs[n].decisions|
      && !HaltedAt(sc.candles, fired, n)
    ensures if Defers(GivenOn(sc, s, pages, n)[k]) then PutAt(sc, s, pages, n, k) < PutAt(sc, s, pages, n, m)
      else RefusalAt(sc, s, pages, n, k) < RefusalAt(sc, s, pages, n, m)
    ensures PutAt(sc, s, pages, n, |sc.inputs[n].decisions|) == pages[n].closed.deferred
    ensures RefusalAt(sc, s, pages, n, |sc.inputs[n].decisions|) + 1 == pages[n].closed.calls
  {
    HandledOnPage(sc, s, fired, pages, n);
    var p, c, given := pages[n], sc.candles[n], GivenOn(sc, s, pages, n);
    var events := Managing(sc.cfg, c, sc.inputs[n]) + Refusals(given, c);
    PlacesRise(given, n, c, k, m);
    assert given[..|given|] == given;
    AddsCount(s.journal[..p.switched.calls], s.journal[..p.closed.calls - 1], events);
    assert |s.deferred[..p.closed.deferred]| == |s.deferred[..p.start.deferred]| + |Puts(given, n, c)|;
  }

  /** Whatever is put off was let pass as it was given. */
  lemma PassedUnchanged(sc: Scenario, s: Story, pages: seq<Page>, n: nat, k: nat)
    requires n < |pages| <= |sc.candles| == |sc.inputs| && k < |sc.inputs[n].decisions|
    requires Defers(GivenOn(sc, s, pages, n)[k])
    ensures GivenOn(sc, s, pages, n)[k] == sc.inputs[n].decisions[k]
  {
    var seen := if pages[n].switched.seen <= |s.seen| then s.seen[..pages[n].switched.seen] else s.seen;
    VerdictAt(GuardOf(sc.cfg), seen, sc.candles[n], sc.inputs[n], |sc.inputs[n].decisions|, k);
  }

  /** Whatever is put off is a decision given on its candle, as it was given. */
  lemma PutIsGiven(sc: Scenario, s: Story, fired: set<nat>, pages: seq<Page>, m: nat, id: nat)
    requires PagesOk(sc, s, fired, pages) && m <= |pages| && id < StartOf(pages, m).deferred <= |s.deferred|
    ensures var d := s.deferred[id];
      && d.candle < m && d.slot < |sc.inputs[d.candle].decisions|
      && d.decision == sc.inputs[d.candle].decisions[d.slot]
  {
    var n := PageOfPut(sc, s, fired, pages, m, id);
    PutsOnPage(sc, s, fired, pages, n, id);
    HandledOnPage(sc, s, fired, pages, n);
    var p, given := pages[n], GivenOn(sc, s, pages, n);
    PutOrRefused(given, n, sc.candles[n]);
    var puts := Puts(given, n, sc.candles[n]);
    assert |s.deferred[..p.closed.deferred]| == |s.deferred[..p.start.deferred]| + |puts|;
    assert s.deferred[..p.closed.deferred][id] == puts[id - p.start.deferred];
    DecisionPutOff(sc, s, fired, pages, n, s.deferred[id].slot, id);
    PassedUnchanged(sc, s, pages, n, s.deferred[id].slot);
  }

  /** Nothing is put off after the last page. */
  lemma StoryEnds(sc: Scenario, s: Story, fired: set<nat>, pages: seq<Page>, curve: seq<EquityPoint>)
    requires Complete(sc, s, fired, pages, curve)
    ensures StartOf(pages, |pages|).deferred == |s.deferred|
  {
    assert s.deferred == s.Upto(pages[|pages| - 1].closed).deferred;
  }

  /** What a firing kill switch leaves open: nothing, if the close is positive, and else what was open. */
  lemma SwitchLeaves(sc: Scenario, s: Story, fired: set<nat>, pages: seq<Page>, n: nat)
    requires PagesOk(sc, s, fired, pages) && n < |pages| && n in fired
    ensures var p := pages[n];
      && s.Reaches(p.settled) && s.Reaches(p.switched) && s.Reaches(p.closed) && p.settled.calls <= p.switched.calls
      && AccountAt(sc.cfg.broker, s.journal, p.switched.calls).positions
         == if sc.candles[n].close > 0.0 then map[] else AccountAt(sc.cfg.broker, s.journal, p.settled.calls).positions
  {
    assert PageOk(sc, s, fired, pages, n);
    var p := pages[n];
    SwitchLeft(sc, n, BaseOf(sc, s, pages, n), fired, s.Upto(p.settled), s.Upto(p.switched));
    AccountUpto(sc.cfg.broker, s, p.settled);
    AccountUpto(sc.cfg.broker, s, p.switched);
  }

  lemma SwitchLeft(sc: Scenario, n: nat, base: real, fired: set<nat>, s: Story, t: Story)
    requires sc.Covers(n) && Switched(sc, n, base, fired, s, t) && n in fired
    ensures |s.journal| <= |t.journal|
    ensures t.Now(sc.cfg.broker).positions ==
      if sc.candles[n].close > 0.0 then map[] else s.Now(sc.cfg.broker).positions
  {
    assert SwitchedAt(sc, n, base, fired, s, t);
  }

  lemma AccountUpto(cfg: BrokerConfig, s: Story, p: Spot)
    requires s.Reaches(p)
    ensures |s.Upto(p).journal| == p.calls && s.Upto(p).Now(cfg) == AccountAt(cfg, s.journal, p.calls)
  {
  }

  /** Calls stand in the order of the pages: a candle's kill switch comes before the end of any candle from it on. */
  lemma {:induction false} SwitchedBefore(sc: Scenario, s: Story, fired: set<nat>, pages: seq<Page>, i: nat, k: nat)
    requires PagesOk(sc, s, fired, pages) && i <= k < |pages|
    ensures pages[i].switched.calls <= pages[k].closed.calls <= |s.journal|
  {
    PageGrows(sc, s, fired, pages, k);
    if i < k { SwitchedBefore(sc, s, fired, pages, i, k - 1); }
  }

  lemma PageGrows(sc: Scenario, s: Story, fired: set<nat>, pages: seq<Page>, n: nat)
    requires PagesOk(sc, s, fired, pages) && n < |pages|
    ensures var p := pages[n];
      StartOf(pages, n).calls <= p.settled.calls <= p.switched.calls <= p.closed.calls <= |s.journal|
  {
    assert PageOk(sc, s, fired, pages, n);
    var p := pages[n];
    PhasesGrow(sc, n, BegunBefore(sc.candles, n), p.waiting, BaseOf(sc, s, pages, n), fired, s.Upto(p.start),
               s.Upto(p.filled), s.Upto(p.settled), s.Upto(p.switched), s.Upto(p.closed));
    GrowsOn(s.Upto(p.start), s.Upto(p.filled), s.Upto(p.settled));
  }

  /** The calls a candle makes of itself, and where they stand on its page. */
  lemma CallsOnPage(sc: Scenario, s: Story, fired: set<nat>, pages: seq<Page>, n: nat)
    requires PagesOk(sc, s, fired, pages) && n < |pages|
    ensures var p, c, cfg := pages[n], sc.candles[n], sc.cfg;
      && p.start.calls <= p.filled.calls < p.settled.calls < p.switched.calls < p.closed.calls <= |s.journal|
      && (!BegunBefore(sc.candles, n) ==>
            p.start.calls < p.filled.calls && s.journal[p.start.calls].event == Marked(map[cfg.pair := c.open]))
      && s.journal[p.filled.calls].event == CandleClosed(c)
      && p.settled.calls == p.filled.calls + (if FundsAt(cfg, c) then 3 else 2)
      && (FundsAt(cfg, c) ==>
            s.journal[p.filled.calls + 1].event == FundingPaid(map[c.pair := c.close], cfg.fundingRate))
      && s.journal[p.settled.calls - 1].event == Marked(map[cfg.pair := c.close])
      && 0 < p.settled.seen <= |s.seen|
      && s.seen[p.settled.seen - 1] ==
         SawCandle(c, Equity(cfg.broker, AccountAt(cfg.broker, s.journal, p.settled.calls)))
      && s.journal[p.settled.calls].event == Marked(map[c.pair := c.close])
      && s.journal[p.closed.calls - 1].event == Marked(map[c.pair := c.close])
      && (cfg.dynamicExits && !HaltedAt(sc.candles, fired, n) ==>
            s.journal[p.switched.calls].event == ExitsManaged(c, sc.inputs[n].atr, cfg.exits, sc.inputs[n].band))
  {
    assert PageOk(sc, s, fired, pages, n);
    var p := pages[n];
    OpeningCalls(sc, s, n, BegunBefore(sc.candles, n), p.waiting, p.start, p.filled);
    SettlingCalls(sc, s, n, p.filled, p.settled);
    SwitchingCalls(sc, s, n, BaseOf(sc, s, pages, n), fired, p.settled, p.switched);
    DealingCalls(sc, s, n, fired, p.switched, p.closed);
  }

  lemma OpeningCalls(sc: Scenario, s: Story, n: nat, begun: bool, pending: seq<Pending>, p: Spot, q: Spot)
    requires sc.Covers(n) && s.Reaches(p) && s.Reaches(q) && Opened(sc, n, begun, pending, s.Upto(p), s.Upto(q))
    ensures p.calls <= q.calls
    ensures !begun ==>
      p.calls < q.calls && s.journal[p.calls].event == Marked(map[sc.cfg.pair := sc.candles[n].open])
  {
    var before, after, events := s.Upto(p).journal, s.Upto(q).journal, Opening(sc.cfg, sc.candles[n], begun, pending);
    AddsCount(before, after, events);
    if !begun { assert AddedAt(before, after, events, p.calls) && after[p.calls] == s.journal[p.calls]; }
  }

  lemma SettlingCalls(sc: Scenario, s: Story, n: nat, p: Spot, q: Spot)
    requires sc.Covers(n) && s.Reaches(p) && s.Reaches(q) && Settled(sc, n, s.Upto(p), s.Upto(q))
    ensures var c, cfg, x := sc.candles[n], sc.cfg, p.calls;
      && q.calls == x + (if FundsAt(cfg, c) then 3 else 2) && s.journal[x].event == CandleClosed(c)
      && (FundsAt(cfg, c) ==> s.journal[x + 1].event == FundingPaid(map[c.pair := c.close], cfg.fundingRate))
      && s.journal[q.calls - 1].event == Marked(map[cfg.pair := c.close]) && 0 < q.seen
      && s.seen[q.seen - 1] == SawCandle(c, Equity(cfg.broker, AccountAt(cfg.broker, s.journal, q.calls)))
  {
    var before, after, events := s.Upto(p).journal, s.Upto(q).journal, Settling(sc.cfg, sc.candles[n]);
    assert SettledAt(sc, n, s.Upto(p), s.Upto(q));
    AddsCount(before, after, events);
    AccountUpto(sc.cfg.broker, s, q);
    assert AddedAt(before, after, events, p.calls) && AddedAt(before, after, events, p.calls + 1);
    assert AddedAt(before, after, events, q.calls - 1);
    assert after[p.calls] == s.journal[p.calls] && after[p.calls + 1] == s.journal[p.calls + 1];
    assert after[q.calls - 1] == s.journal[q.calls - 1];
  }

  lemma SwitchingCalls(sc: Scenario, s: Story, n: nat, base: real, fired: set<nat>, p: Spot, q: Spot)
    requires sc.Covers(n) && s.Reaches(p) && s.Reaches(q) && Switched(sc, n, base, fired, s.Upto(p), s.Upto(q))
    ensures p.calls < q.calls && s.journal[p.calls].event == Marked(map[sc.candles[n].pair := sc.candles[n].close])
  {
    assert SwitchedAt(sc, n, base, fired, s.Upto(p), s.Upto(q));
    assert s.Upto(q).journal[p.calls] == s.journal[p.calls];
  }

  lemma DealingCalls(sc: Scenario, s: Story, n: nat, fired: set<nat>, p: Spot, q: Spot)
    requires sc.Covers(n) && s.Reaches(p) && s.Reaches(q) && Dealt(sc, n, fired, s.Upto(p), s.Upto(q))
    ensures p.calls < q.calls && s.journal[q.calls - 1].event == Marked(map[sc.candles[n].pair := sc.candles[n].close])
    ensures sc.cfg.dynamicExits && !HaltedAt(sc.candles, fired, n) ==>
      s.journal[p.calls].event == ExitsManaged(sc.candles[n], sc.inputs[n].atr, sc.cfg.exits, sc.inputs[n].band)
  {
    DealtSays(sc, n, fired, s.Upto(p), s.Upto(q));
    var d, e := s.Upto(p).journal, s.Upto(q).journal;
    if !HaltedAt(sc.candles, fired, n) {
      var given := Verdicts(GuardOf(sc.cfg), s.Upto(p).seen, sc.candles[n], sc.inputs[n], |sc.inputs[n].decisions|);
      var events := Managing(sc.cfg, sc.candles[n], sc.inputs[n]) + Refusals(given, sc.candles[n]);
      AddsCount(d, e[..|e| - 1], events);
      assert AddedAt(d, e[..|e| - 1], events, p.calls);
      assert e[p.calls] == s.journal[p.calls];
    }
    assert e[q.calls - 1] == s.journal[q.calls - 1];
  }
}
