/** The candle closes, funding payments and stop updates of a run, and when they are made. */
module BacktestSchedule {
  import opened Common
  import opened Market
  import opened Ledger
  import opened LedgerRuns
  import opened SafetyGuard
  import opened BacktestTrace
  import opened BacktestBooks
  import opened BacktestPages
  import opened FundingClock

  /** Candle closes, funding and stop management, leaving decisions and marks aside. */
  predicate Scheduled(e: Event) { e.CandleClosed? || e.FundingPaid? || e.ExitsManaged? }

  function Timeline(events: seq<Event>): seq<Event>
  {
    if events == [] then []
    else
      var earlier, e := Timeline(events[..|events| - 1]), events[|events| - 1];
      if Scheduled(e) then earlier + [e] else earlier
  }

  lemma {:induction false} TimelineAppend(x: seq<Event>, y: seq<Event>)
    ensures Timeline(x + y) == Timeline(x) + Timeline(y)
  {
    if y == [] {
      assert x + y == x;
    } else {
      assert (x + y)[..|x + y| - 1] == x + y[..|y| - 1];
      TimelineAppend(x, y[..|y| - 1]);
    }
  }

  lemma {:induction false} NothingScheduled(events: seq<Event>)
    requires forall i :: 0 <= i < |events| ==> !Scheduled(events[i])
    ensures Timeline(events) == []
  {
    if events != [] { NothingScheduled(events[..|events| - 1]); }
  }

  /** One candle's calls: its exits, then funding on a boundary, then stop management unless the day is halted. */
  function Slot(cfg: BacktestConfig, c: Candle, input: CandleInputs, halted: bool): seq<Event>
  {
    [CandleClosed(c)] + Funding(cfg, c) + (if halted then [] else Managing(cfg, c, input))
  }

  ghost function Schedule(cfg: BacktestConfig, candles: seq<Candle>, inputs: seq<CandleInputs>, fired: set<nat>,
                          n: nat): seq<Event>
    requires n <= |candles| == |inputs|
  {
    if n == 0 then []
    else Schedule(cfg, candles, inputs, fired, n - 1) + Slot(cfg, candles[n - 1], inputs[n - 1],
                                                             HaltedAt(candles, fired, n - 1))
  }

  lemma {:induction false} EventsUpto(journal: seq<Call>, x: nat, y: nat)
    requires y <= x <= |journal|
    ensures Events(journal[..x], y) == Events(journal, y)
  {
    if y > 0 { EventsUpto(journal, x, y - 1); }
  }

  lemma {:induction false} EventsAt(journal: seq<Call>, x: nat, i: nat)
    requires i < x <= |journal|
    ensures Events(journal, x)[i] == journal[i].event
  {
    if i < x - 1 { EventsAt(journal, x - 1, i); }
  }

  lemma AddedEvents(before: seq<Call>, after: seq<Call>, events: seq<Event>)
    requires Adds(before, after, events)
    ensures Events(after, |after|) == Events(before, |before|) + events
  {
    AddsCount(before, after, events);
    forall i | 0 <= i < |after| ensures Events(after, |after|)[i] == (Events(before, |before|) + events)[i] {
      EventsAt(after, |after|, i);
      assert AddedAt(before, after, events, i);
      if i < |before| { EventsAt(before, |before|, i); }
    }
  }

  /** The scheduled calls in the first `x`. */
  function ScheduledBy(s: Story, x: nat): seq<Event>
    requires x <= |s.journal|
  {
    Timeline(Events(s.journal, x))
  }

  lemma AddedTimeline(s: Story, p: Spot, q: Spot, events: seq<Event>)
    requires s.Reaches(p) && s.Reaches(q) && Adds(s.Upto(p).journal, s.Upto(q).journal, events)
    ensures ScheduledBy(s, q.calls) == ScheduledBy(s, p.calls) + Timeline(events)
  {
    AddedEvents(s.Upto(p).journal, s.Upto(q).journal, events);
    EventsUpto(s.journal, p.calls, p.calls);
    EventsUpto(s.journal, q.calls, q.calls);
    TimelineAppend(Events(s.journal, p.calls), events);
  }

  lemma TimelineSkips(events: seq<Event>, e: Event)
    requires !Scheduled(e)
    ensures Timeline(events + [e]) == Timeline(events)
  {
    assert (events + [e])[..|events|] == events;
  }

  lemma {:induction false} FillsUnscheduled(c: Candle, pending: seq<Pending>, k: nat)
    requires k <= |pending|
    ensures Timeline(Fills(c, pending, k)) == []
  {
    if k > 0 {
      FillsUnscheduled(c, pending, k - 1);
      TimelineSkips(Fills(c, pending, k - 1), FillOf(c, pending[k - 1]));
    }
  }

  lemma {:induction false} RefusalsUnscheduled(given: seq<Decision>, c: Candle)
    ensures Timeline(Refusals(given, c)) == []
  {
    if given != [] {
      var k := |given| - 1;
      RefusalsUnscheduled(given[..k], c);
      TimelineSkips(Refusals(given[..k], c), Decided(given[k], Some(c.close), c.closeTime));
    }
  }

  lemma TimelineOne(e: Event)
    ensures Timeline([e]) == if Scheduled(e) then [e] else []
  {
    assert [e][..0] == [];
  }

  lemma OpenedTimeline(sc: Scenario, s: Story, n: nat, begun: bool, pending: seq<Pending>, p: Spot, q: Spot)
    requires sc.Covers(n) && s.Reaches(p) && s.Reaches(q) && Opened(sc, n, begun, pending, s.Upto(p), s.Upto(q))
    ensures ScheduledBy(s, q.calls) == ScheduledBy(s, p.calls)
  {
    FillsUnscheduled(sc.candles[n], pending, |pending|);
    var marks := DayMark(sc.cfg, sc.candles[n], begun);
    NothingScheduled(marks);
    TimelineAppend(marks, Fills(sc.candles[n], pending, |pending|));
    AddedTimeline(s, p, q, Opening(sc.cfg, sc.candles[n], begun, pending));
  }

  lemma SettledTimeline(sc: Scenario, s: Story, n: nat, p: Spot, q: Spot)
    requires sc.Covers(n) && s.Reaches(p) && s.Reaches(q) && Settled(sc, n, s.Upto(p), s.Upto(q))
    ensures ScheduledBy(s, q.calls) == ScheduledBy(s, p.calls)
      + ([CandleClosed(sc.candles[n])] + Funding(sc.cfg, sc.candles[n]))
  {
    assert SettledAt(sc, n, s.Upto(p), s.Upto(q));
    SettlingTimeline(sc.cfg, sc.candles[n]);
    AddedTimeline(s, p, q, Settling(sc.cfg, sc.candles[n]));
  }

  lemma SettlingTimeline(cfg: BacktestConfig, c: Candle)
    ensures Timeline(Settling(cfg, c)) == [CandleClosed(c)] + Funding(cfg, c)
  {
    TimelineOne(CandleClosed(c));
    TimelineOne(Marked(map[cfg.pair := c.close]));
    TimelineAppend([CandleClosed(c)] + Funding(cfg, c), [Marked(map[cfg.pair := c.close])]);
    TimelineAppend([CandleClosed(c)], Funding(cfg, c));
    FundingTimeline(cfg, c);
  }

  lemma FundingTimeline(cfg: BacktestConfig, c: Candle)
    ensures Timeline(Funding(cfg, c)) == Funding(cfg, c)
  {
    TimelineOne(FundingPaid(map[c.pair := c.close], cfg.fundingRate));
  }

  lemma SwitchedTimeline(sc: Scenario, s: Story, n: nat, base: real, fired: set<nat>, p: Spot, q: Spot)
    requires sc.Covers(n) && s.Reaches(p) && s.Reaches(q) && Switched(sc, n, base, fired, s.Upto(p), s.Upto(q))
    ensures ScheduledBy(s, q.calls) == ScheduledBy(s, p.calls)
  {
    var from, to := s.Upto(p).journal, s.Upto(q).journal;
    assert SwitchedAt(sc, n, base, fired, s.Upto(p), s.Upto(q));
    forall z | |from| <= z < |to| ensures !Scheduled(to[z].event) {
      if z > |from| { assert Closing(to[z].event, sc.candles[n], KillSwitch); }
    }
    var events := AddedSince(from, to);
    NothingScheduled(events);
    AddedTimeline(s, p, q, events);
  }

  /** What was added to a journal. */
  ghost function AddedSince(from: seq<Call>, to: seq<Call>): (events: seq<Event>)
    requires |from| <= |to| && to[..|from|] == from
    ensures |events| == |to| - |from| && forall i :: 0 <= i < |events| ==> events[i] == to[|from| + i].event
    ensures Adds(from, to, events)
  {
    var events := seq(|to| - |from|, i requires 0 <= i < |to| - |from| => to[|from| + i].event);
    assert forall x: nat :: AddedAt(from, to, events, x);
    events
  }

  lemma ManagedTimeline(s: Story, p: Spot, q: Spot, cfg: BacktestConfig, c: Candle, input: CandleInputs,
                        given: seq<Decision>)
    requires s.Reaches(p) && s.Reaches(q)
    requires Adds(s.Upto(p).journal, s.Upto(q).journal, Managing(cfg, c, input) + Refusals(given, c))
    ensures ScheduledBy(s, q.calls) == ScheduledBy(s, p.calls) + Managing(cfg, c, input)
  {
    var managing, refusals := Managing(cfg, c, input), Refusals(given, c);
    RefusalsUnscheduled(given, c);
    TimelineOne(ExitsManaged(c, input.atr, cfg.exits, input.band));
    TimelineAppend(managing, refusals);
    AddedTimeline(s, p, q, managing + refusals);
  }

  lemma DealtTimeline(sc: Scenario, s: Story, n: nat, fired: set<nat>, p: Spot, q: Spot)
    requires sc.Covers(n) && s.Reaches(p) && s.Reaches(q) && Dealt(sc, n, fired, s.Upto(p), s.Upto(q))
    ensures ScheduledBy(s, q.calls) ==
      ScheduledBy(s, p.calls) + (if HaltedAt(sc.candles, fired, n) then []
                                 else Managing(sc.cfg, sc.candles[n], sc.inputs[n]))
  {
    var c, input := sc.candles[n], sc.inputs[n];
    DealtSays(sc, n, fired, s.Upto(p), s.Upto(q));
    var handled := q.(calls := q.calls - 1);
    LastMark(s, q, map[c.pair := c.close]);
    assert s.Upto(handled).journal == s.Upto(q).journal[..handled.calls];
    if HaltedAt(sc.candles, fired, n) {
      assert |s.Upto(handled).journal| == |s.Upto(p).journal|;
    } else {
      var given := Verdicts(GuardOf(sc.cfg), s.Upto(p).seen, c, input, |input.decisions|);
      ManagedTimeline(s, p, handled, sc.cfg, c, input, given);
    }
  }

  lemma LastMark(s: Story, q: Spot, prices: map<string, real>)
    requires s.Reaches(q) && q.calls > 0 && s.journal[q.calls - 1].event == Marked(prices)
    ensures ScheduledBy(s, q.calls) == ScheduledBy(s, q.calls - 1)
  {
    TimelineSkips(Events(s.journal, q.calls - 1), Marked(prices));
  }

  lemma PageOnSchedule(sc: Scenario, s: Story, fired: set<nat>, pages: seq<Page>, n: nat)
    requires PagesOk(sc, s, fired, pages) && n < |pages|
    ensures s.Reaches(StartOf(pages, n)) && s.Reaches(StartOf(pages, n + 1))
    ensures ScheduledBy(s, StartOf(pages, n + 1).calls) ==
      ScheduledBy(s, StartOf(pages, n).calls) + Slot(sc.cfg, sc.candles[n], sc.inputs[n],
                                                     HaltedAt(sc.candles, fired, n))
  {
    assert PageOk(sc, s, fired, pages, n);
    var p := pages[n];
    OpenedTimeline(sc, s, n, BegunBefore(sc.candles, n), p.waiting, p.start, p.filled);
    SettledTimeline(sc, s, n, p.filled, p.settled);
    SwitchedTimeline(sc, s, n, BaseOf(sc, s, pages, n), fired, p.settled, p.switched);
    DealtTimeline(sc, s, n, fired, p.switched, p.closed);
  }

  /** The pages of a run are on schedule: after `k` of them the scheduled calls are those of the first `k` candles. */
  lemma {:induction false} PagesOnSchedule(sc: Scenario, s: Story, fired: set<nat>, pages: seq<Page>, k: nat)
    requires PagesOk(sc, s, fired, pages) && k <= |pages|
    ensures s.Reaches(StartOf(pages, k))
    ensures ScheduledBy(s, StartOf(pages, k).calls) == Schedule(sc.cfg, sc.candles, sc.inputs, fired, k)
  {
    if k > 0 {
      PagesOnSchedule(sc, s, fired, pages, k - 1);
      PageOnSchedule(sc, s, fired, pages, k - 1);
    }
  }

  lemma {:induction false} LeftoverAt(c: Candle, left: seq<Pending>, k: nat, i: nat)
    requires i < k <= |left|
    ensures Leftovers(c, left, k)[i] == LeftoverOf(c, left[i])
  {
    if i < k - 1 { LeftoverAt(c, left, k - 1, i); }
  }

  lemma ConcludedUnscheduled(s: Story, t: Story, c: Candle, left: seq<Pending>, x: nat)
    requires Concluded(s, t, c, left) && |s.journal| <= x < |t.journal|
    ensures !Scheduled(t.journal[x].event)
  {
    var from := |s.journal| + |left|;
    var m := s.(journal := t.journal[..from]);
    if x < from {
      assert AddedAt(s.journal, m.journal, Leftovers(c, left, |left|), x);
      LeftoverAt(c, left, |left|, x - |s.journal|);
    } else {
      assert WoundAt(m.journal, t.journal, c, x);
    }
  }

  /** A completed run has made exactly the scheduled calls of all its candles, in order. */
  lemma CompleteOnSchedule(sc: Scenario, s: Story, fired: set<nat>, pages: seq<Page>, curve: seq<EquityPoint>)
    requires Complete(sc, s, fired, pages, curve)
    ensures ScheduledBy(s, |s.journal|) == Schedule(sc.cfg, sc.candles, sc.inputs, fired, |sc.candles|)
  {
    PagesOnSchedule(sc, s, fired, pages, |pages|);
    var last, from := |pages| - 1, pages[|pages| - 1].closed.calls;
    var events := AddedSince(s.journal[..from], s.journal);
    forall i | 0 <= i < |events| ensures !Scheduled(events[i]) {
      ConcludedUnscheduled(s.Upto(pages[last].closed), s, sc.candles[last], pages[last].left, from + i);
    }
    NothingScheduled(events);
    AddedEvents(s.journal[..from], s.journal, events);
    EventsUpto(s.journal, from, from);
    TimelineAppend(Events(s.journal, from), events);
  }

  // ------------------------------------------------------------------ how many candles have been closed

  function CandlesIn(events: seq<Event>): nat
  {
    if events == [] then 0
    else CandlesIn(events[..|events| - 1]) + (if events[|events| - 1].CandleClosed? then 1 else 0)
  }

  lemma {:induction false} CandlesInAppend(x: seq<Event>, y: seq<Event>)
    ensures CandlesIn(x + y) == CandlesIn(x) + CandlesIn(y)
  {
    if y == [] {
      assert x + y == x;
    } else {
      assert (x + y)[..|x + y| - 1] == x + y[..|y| - 1];
      CandlesInAppend(x, y[..|y| - 1]);
    }
  }

  lemma {:induction false} CandlesAreScheduled(events: seq<Event>)
    ensures CandlesIn(Timeline(events)) == CandlesIn(events)
  {
    if events != [] {
      var init, e := events[..|events| - 1], events[|events| - 1];
      CandlesAreScheduled(init);
      if Scheduled(e) { CandlesInAppend(Timeline(init), [e]); }
      assert [e][..0] == [];
    }
  }

  lemma {:induction false} TurnCounts(cfg: BrokerConfig, journal: seq<Call>, a: Account, x: nat)
    requires Lived(cfg, journal, a) && x <= |journal|
    ensures TurnAt(journal, x) == CandlesIn(Events(journal, x))
  {
    if x > 0 {
      assert LinkedAt(cfg, journal, x - 1);
      TurnCounts(cfg, journal, a, x - 1);
      assert Events(journal, x)[..x - 1] == Events(journal, x - 1);
    }
  }

  lemma SettledCandles(cfg: BacktestConfig, c: Candle)
    ensures CandlesIn([CandleClosed(c)] + Funding(cfg, c)) == 1
  {
    CandlesInAppend([CandleClosed(c)], Funding(cfg, c));
    assert [CandleClosed(c)][..0] == [];
  }

  lemma SlotCandles(cfg: BacktestConfig, c: Candle, input: CandleInputs, halted: bool)
    ensures CandlesIn(Slot(cfg, c, input, halted)) == 1
  {
    SettledCandles(cfg, c);
    CandlesInAppend([CandleClosed(c)] + Funding(cfg, c), if halted then [] else Managing(cfg, c, input));
  }

  lemma {:induction false} ScheduledCandles(cfg: BacktestConfig, candles: seq<Candle>, inputs: seq<CandleInputs>,
                                            fired: set<nat>, n: nat)
    requires n <= |candles| == |inputs|
    ensures CandlesIn(Schedule(cfg, candles, inputs, fired, n)) == n
  {
    if n > 0 {
      ScheduledCandles(cfg, candles, inputs, fired, n - 1);
      var earlier := Schedule(cfg, candles, inputs, fired, n - 1);
      var slot := Slot(cfg, candles[n - 1], inputs[n - 1], HaltedAt(candles, fired, n - 1));
      SlotCandles(cfg, candles[n - 1], inputs[n - 1], HaltedAt(candles, fired, n - 1));
      CandlesInAppend(earlier, slot);
      assert Schedule(cfg, candles, inputs, fired, n) == earlier + slot;
    }
  }

  /** Where the `n`-th page starts `n` candles have been closed, and one more where it has settled. */
  lemma TurnOnPage(sc: Scenario, s: Story, fired: set<nat>, pages: seq<Page>, n: nat, a: Account)
    requires PagesOk(sc, s, fired, pages) && n <= |pages| && Lived(sc.cfg.broker, s.journal, a)
    ensures s.Reaches(StartOf(pages, n)) && TurnAt(s.journal, StartOf(pages, n).calls) == n
    ensures n < |pages| ==> s.Reaches(pages[n].settled) && TurnAt(s.journal, pages[n].settled.calls) == n + 1
  {
    PagesOnSchedule(sc, s, fired, pages, n);
    CandlesAreScheduled(Events(s.journal, StartOf(pages, n).calls));
    ScheduledCandles(sc.cfg, sc.candles, sc.inputs, fired, n);
    TurnCounts(sc.cfg.broker, s.journal, a, StartOf(pages, n).calls);
    if n < |pages| {
      SettledOnPage(sc, s, fired, pages, n);
      var p := pages[n];
      SettledCandles(sc.cfg, sc.candles[n]);
      CandlesInAppend(ScheduledBy(s, p.start.calls), [CandleClosed(sc.candles[n])] + Funding(sc.cfg, sc.candles[n]));
      CandlesAreScheduled(Events(s.journal, p.settled.calls));
      TurnCounts(sc.cfg.broker, s.journal, a, p.settled.calls);
    }
  }

  lemma SettledOnPage(sc: Scenario, s: Story, fired: set<nat>, pages: seq<Page>, n: nat)
    requires PagesOk(sc, s, fired, pages) && n < |pages|
    ensures s.Reaches(pages[n].start) && s.Reaches(pages[n].settled) && pages[n].start == StartOf(pages, n)
    ensures ScheduledBy(s, pages[n].settled.calls) ==
      ScheduledBy(s, pages[n].start.calls) + ([CandleClosed(sc.candles[n])] + Funding(sc.cfg, sc.candles[n]))
  {
    assert PageOk(sc, s, fired, pages, n);
    var p := pages[n];
    OpenedTimeline(sc, s, n, BegunBefore(sc.candles, n), p.waiting, p.start, p.filled);
    SettledTimeline(sc, s, n, p.filled, p.settled);
  }

  /** How many funding payments a list of calls holds. */
  function FundingCalls(events: seq<Event>): nat
  {
    if events == [] then 0
    else FundingCalls(events[..|events| - 1]) + (if events[|events| - 1].FundingPaid? then 1 else 0)
  }

  lemma {:induction false} FundingCallsAppend(x: seq<Event>, y: seq<Event>)
    ensures FundingCalls(x + y) == FundingCalls(x) + FundingCalls(y)
  {
    if y == [] {
      assert x + y == x;
    } else {
      assert (x + y)[..|x + y| - 1] == x + y[..|y| - 1];
      FundingCallsAppend(x, y[..|y| - 1]);
    }
  }

  lemma {:induction false} FundingIsScheduled(events: seq<Event>)
    ensures FundingCalls(Timeline(events)) == FundingCalls(events)
  {
    if events != [] {
      var init, e := events[..|events| - 1], events[|events| - 1];
      FundingIsScheduled(init);
      if Scheduled(e) { FundingCallsAppend(Timeline(init), [e]); }
      assert [e][..0] == [];
    }
  }

  /** A run pays funding once per boundary candle, whatever else happens on it. */
  lemma {:induction false} ScheduledFunding(cfg: BacktestConfig, candles: seq<Candle>, inputs: seq<CandleInputs>,
                                            fired: set<nat>, n: nat)
    requires n <= |candles| == |inputs| && cfg.fundingRate != 0.0
    ensures FundingCalls(Schedule(cfg, candles, inputs, fired, n)) == Boundaries(candles[..n], cfg.fundingHours)
  {
    if n > 0 {
      ScheduledFunding(cfg, candles, inputs, fired, n - 1);
      assert candles[..n][..n - 1] == candles[..n - 1];
      var halted := HaltedAt(candles, fired, n - 1);
      SlotFunding(cfg, candles[n - 1], inputs[n - 1], halted);
      FundingCallsAppend(Schedule(cfg, candles, inputs, fired, n - 1),
                         Slot(cfg, candles[n - 1], inputs[n - 1], halted));
    }
  }

  lemma SlotFunding(cfg: BacktestConfig, c: Candle, input: CandleInputs, halted: bool)
    ensures FundingCalls(Slot(cfg, c, input, halted)) == if FundsAt(cfg, c) then 1 else 0
  {
    FundingCallsAppend([CandleClosed(c)] + Funding(cfg, c), if halted then [] else Managing(cfg, c, input));
    FundingCallsAppend([CandleClosed(c)], Funding(cfg, c));
  }

  /**
   * On adjacent candles a run pays funding at most once per boundary, and misses none exactly when no candle straddles
   * one.
   */
  lemma RunFundsEachBoundaryOnce(cfg: BacktestConfig, candles: seq<Candle>, inputs: seq<CandleInputs>, fired: set<nat>)
    requires candles != [] && |candles| == |inputs| && Adjacent(candles) && cfg.fundingRate != 0.0
      && cfg.fundingHours > 0
    ensures var calls := FundingCalls(Schedule(cfg, candles, inputs, fired, |candles|));
      && calls <= Covered(candles, cfg.fundingHours)
      && (calls == Covered(candles, cfg.fundingHours) <==>
            forall i :: 0 <= i < |candles| ==> InOnePeriod(candles[i], cfg.fundingHours))
  {
    ScheduledFunding(cfg, candles, inputs, fired, |candles|);
    FundingOncePerBoundary(candles, cfg.fundingHours);
    assert candles[..|candles|] == candles;
  }
}
