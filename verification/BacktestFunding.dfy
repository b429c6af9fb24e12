/** What a backtest pays in funding: on every candle at a boundary, the rate on the worth of its inventory. */
module BacktestFunding {
  import opened Common
  import opened Market
  import opened Sums
  import opened Ledger
  import opened LedgerMoves
  import opened LedgerRuns
  import opened SafetyGuard
  import opened BacktestTrace
  import opened BacktestBooks
  import opened BacktestPages
  import opened FundingLedger

  /** What the first `x` calls cost in funding. */
  ghost function FundingIn(cfg: BrokerConfig, journal: seq<Call>, x: nat): real
    requires x <= |journal|
  {
    if x == 0 then 0.0
    else FundingIn(cfg, journal, x - 1) + FundingOf(cfg, journal[x - 1].before, journal[x - 1].event)
  }

  lemma {:induction false} FundingInRun(cfg: BrokerConfig, journal: seq<Call>, a: Account, x: nat)
    requires cfg.Valid() && Lived(cfg, journal, a) && x <= |journal|
    ensures FundingOver(cfg, Events(journal, x)) == FundingIn(cfg, journal, x)
  {
    if x > 0 {
      FundingInRun(cfg, journal, a, x - 1);
      assert LinkedAt(cfg, journal, x - 1);
      LivedIsRun(cfg, journal, a, x - 1);
      assert Events(journal, x)[..x - 1] == Events(journal, x - 1);
    }
  }

  function Unfunded(): Event -> bool { (e: Event) => !e.FundingPaid? }

  lemma {:induction false} FundingSkips(cfg: BrokerConfig, journal: seq<Call>, x: nat, y: nat)
    requires x <= y <= |journal| && forall z :: x <= z < y ==> Unfunded()(journal[z].event)
    ensures FundingIn(cfg, journal, y) == FundingIn(cfg, journal, x)
  {
    if x < y { FundingSkips(cfg, journal, x, y - 1); }
  }

  /** The account when the candle's exits have been made. */
  function FundedAccount(sc: Scenario, s: Story, pages: seq<Page>, n: nat): Account
    requires n < |pages|
  {
    var x := pages[n].filled.calls + 1;
    if x <= |s.journal| then AccountAt(sc.cfg.broker, s.journal, x) else Fresh(sc.cfg.broker)
  }

  /** What a candle costs in funding: on a boundary, the rate on the worth of the inventory at its close. */
  ghost function DueOn(sc: Scenario, s: Story, pages: seq<Page>, n: nat): real
    requires n < |pages| <= |sc.candles|
  {
    var a, c := FundedAccount(sc, s, pages, n), sc.candles[n];
    if FundsAt(sc.cfg, c) then
      Times(sc.cfg.fundingRate, InventoryWorth(sc.cfg.broker, a.fills, ChargedPrices(a, map[c.pair := c.close])))
    else 0.0
  }

  ghost function DueOver(sc: Scenario, s: Story, pages: seq<Page>, k: nat): real
    requires k <= |pages| <= |sc.candles|
  {
    if k == 0 then 0.0 else DueOver(sc, s, pages, k - 1) + DueOn(sc, s, pages, k - 1)
  }

  lemma {:induction false} FillsUnfunded(c: Candle, pending: seq<Pending>, k: nat)
    requires k <= |pending|
    ensures forall e :: e in Fills(c, pending, k) ==> Unfunded()(e)
  {
    if k > 0 { FillsUnfunded(c, pending, k - 1); }
  }

  lemma {:induction false} RefusalsUnfunded(given: seq<Decision>, c: Candle)
    ensures forall e :: e in Refusals(given, c) ==> Unfunded()(e)
  {
    if given != [] { RefusalsUnfunded(given[..|given| - 1], c); }
  }

  lemma OpeningUnfunded(sc: Scenario, s: Story, n: nat, begun: bool, pending: seq<Pending>, p: Spot, q: Spot)
    requires sc.Covers(n) && s.Reaches(p) && s.Reaches(q) && Opened(sc, n, begun, pending, s.Upto(p), s.Upto(q))
    ensures p.calls <= q.calls && FundingIn(sc.cfg.broker, s.journal, q.calls) ==
      FundingIn(sc.cfg.broker, s.journal, p.calls)
  {
    FillsUnfunded(sc.candles[n], pending, |pending|);
    var before, after := s.Upto(p).journal, s.Upto(q).journal;
    AddedFrom(before, after, Opening(sc.cfg, sc.candles[n], begun, pending), p.calls, Unfunded());
    Unpaid(sc.cfg.broker, s, p, q);
  }

  lemma Unpaid(cfg: BrokerConfig, s: Story, p: Spot, q: Spot)
    requires s.Reaches(p) && s.Reaches(q) && p.calls <= q.calls
    requires AllFrom(s.Upto(q).journal, p.calls, Unfunded())
    ensures FundingIn(cfg, s.journal, q.calls) == FundingIn(cfg, s.journal, p.calls)
  {
    forall z | p.calls <= z < q.calls ensures Unfunded()(s.journal[z].event) {
      assert s.Upto(q).journal[z] == s.journal[z];
    }
    FundingSkips(cfg, s.journal, p.calls, q.calls);
  }

  /** Settling pays exactly what is due. */
  lemma SettlingFunds(sc: Scenario, s: Story, n: nat, pages: seq<Page>, a: Account)
    requires sc.Covers(n) && n < |pages| <= |sc.candles| && Lived(sc.cfg.broker, s.journal, a)
    requires var p := pages[n];
      s.Reaches(p.filled) && s.Reaches(p.settled) && Settled(sc, n, s.Upto(p.filled), s.Upto(p.settled))
    ensures FundingIn(sc.cfg.broker, s.journal, pages[n].settled.calls) ==
      FundingIn(sc.cfg.broker, s.journal, pages[n].filled.calls) + DueOn(sc, s, pages, n)
  {
    var cfg, c, p := sc.cfg, sc.candles[n], pages[n];
    var before, after, x := s.Upto(p.filled).journal, s.Upto(p.settled).journal, p.filled.calls;
    assert SettledAt(sc, n, s.Upto(p.filled), s.Upto(p.settled));
    AddsCount(before, after, Settling(cfg, c));
    assert AddedAt(before, after, Settling(cfg, c), x) && after[x] == s.journal[x];
    assert AddedAt(before, after, Settling(cfg, c), x + 1) && after[x + 1] == s.journal[x + 1];
    assert LinkedAt(cfg.broker, s.journal, x + 1);
    assert FundingIn(cfg.broker, s.journal, x + 1) == FundingIn(cfg.broker, s.journal, x);
    if FundsAt(cfg, c) {
      assert AddedAt(before, after, Settling(cfg, c), x + 2) && after[x + 2] == s.journal[x + 2];
    }
  }

  lemma SwitchingUnfunded(sc: Scenario, s: Story, n: nat, base: real, fired: set<nat>, p: Spot, q: Spot)
    requires sc.Covers(n) && s.Reaches(p) && s.Reaches(q) && Switched(sc, n, base, fired, s.Upto(p), s.Upto(q))
    ensures p.calls <= q.calls && FundingIn(sc.cfg.broker, s.journal, q.calls) ==
      FundingIn(sc.cfg.broker, s.journal, p.calls)
  {
    assert SwitchedAt(sc, n, base, fired, s.Upto(p), s.Upto(q));
    Unpaid(sc.cfg.broker, s, p, q);
  }

  lemma DealingUnfunded(sc: Scenario, s: Story, n: nat, fired: set<nat>, p: Spot, q: Spot)
    requires sc.Covers(n) && s.Reaches(p) && s.Reaches(q) && Dealt(sc, n, fired, s.Upto(p), s.Upto(q))
    ensures p.calls <= q.calls && FundingIn(sc.cfg.broker, s.journal, q.calls) ==
      FundingIn(sc.cfg.broker, s.journal, p.calls)
  {
    var c, input, d, e := sc.candles[n], sc.inputs[n], s.Upto(p), s.Upto(q);
    DealtSays(sc, n, fired, d, e);
    var kept := e.journal[..|e.journal| - 1];
    if !HaltedAt(sc.candles, fired, n) {
      var given := Verdicts(GuardOf(sc.cfg), d.seen, c, input, |input.decisions|);
      RefusalsUnfunded(given, c);
      AddedFrom(d.journal, kept, Managing(sc.cfg, c, input) + Refusals(given, c), p.calls, Unfunded());
    }
    forall z | p.calls <= z < |e.journal| ensures Unfunded()(e.journal[z].event) {
      if z < |kept| { assert kept[z] == e.journal[z]; }
    }
    Unpaid(sc.cfg.broker, s, p, q);
  }

  lemma {:induction false} PagesFund(sc: Scenario, s: Story, fired: set<nat>, pages: seq<Page>, k: nat, a: Account)
    requires PagesOk(sc, s, fired, pages) && k <= |pages| && Lived(sc.cfg.broker, s.journal, a)
    ensures s.Reaches(StartOf(pages, k))
    ensures FundingIn(sc.cfg.broker, s.journal, StartOf(pages, k).calls) == DueOver(sc, s, pages, k)
  {
    if k > 0 {
      PagesFund(sc, s, fired, pages, k - 1, a);
      var n, p := k - 1, pages[k - 1];
      assert PageOk(sc, s, fired, pages, n);
      OpeningUnfunded(sc, s, n, BegunBefore(sc.candles, n), p.waiting, p.start, p.filled);
      SettlingFunds(sc, s, n, pages, a);
      SwitchingUnfunded(sc, s, n, BaseOf(sc, s, pages, n), fired, p.settled, p.switched);
      DealingUnfunded(sc, s, n, fired, p.switched, p.closed);
    }
  }

  lemma {:induction false} LeftoversUnfunded(c: Candle, left: seq<Pending>, k: nat)
    requires k <= |left|
    ensures forall e :: e in Leftovers(c, left, k) ==> Unfunded()(e)
  {
    if k > 0 { LeftoversUnfunded(c, left, k - 1); }
  }

  lemma ConcludingUnfunded(s: Story, t: Story, c: Candle, left: seq<Pending>)
    requires Concluded(s, t, c, left)
    ensures AllFrom(t.journal, |s.journal|, Unfunded())
  {
    var m := t.journal[..|s.journal| + |left|];
    LeftoversUnfunded(c, left, |left|);
    AddedFrom(s.journal, m, Leftovers(c, left, |left|), |s.journal|, Unfunded());
    forall z | |s.journal| <= z < |t.journal| ensures Unfunded()(t.journal[z].event) {
      assert WoundAt(m, t.journal, c, z);
      if z < |m| { assert m[z] == t.journal[z]; }
    }
  }

  /** A completed run has paid what was due on its candles, and nothing else. */
  lemma CompleteFunds(sc: Scenario, s: Story, fired: set<nat>, pages: seq<Page>, curve: seq<EquityPoint>, a: Account)
    requires Complete(sc, s, fired, pages, curve) && Lived(sc.cfg.broker, s.journal, a)
    ensures FundingIn(sc.cfg.broker, s.journal, |s.journal|) == DueOver(sc, s, pages, |sc.candles|)
  {
    var last := pages[|pages| - 1].closed;
    PagesFund(sc, s, fired, pages, |pages|, a);
    ConcludingUnfunded(s.Upto(last), s, sc.candles[|pages| - 1], pages[|pages| - 1].left);
    FundingSkips(sc.cfg.broker, s.journal, last.calls, |s.journal|);
  }
}
