/** The candle-by-candle backtest loop (`BacktestEngine.run`). */
module Backtest {
  import opened Common
  import opened Market
  import opened Sums
  import opened Ledger
  import opened LedgerMoves
  import opened LedgerRuns
  import opened PaperBroker
  import opened SafetyGuard
  import opened BacktestTrace
  import opened BacktestBooks
  import opened BacktestPages
  import opened BacktestSchedule
  import opened FundingClock
  import opened FundingLedger
  import opened BacktestFunding
  import opened BacktestFills
  import FillRules
  import GuardRules
  import Sorting
  import StopManagement

  /** How a run ends: `run` raises on an empty candle list and when the stop settings are invalid. */
  datatype Outcome = NoCandles | Raised | Completed(finalEquity: real)

  /** Candles are taken by opening time. */
  function ByOpen(): Candle -> real { (c: Candle) => c.openTime as real }

  class Engine {
    const cfg: BacktestConfig
    const candles: seq<Candle>
    const inputs: seq<CandleInputs>
    const broker: Broker
    const safety: SafetyState

    var reports: seq<Report>
    var trades: seq<Trade>
    var legs: map<string, real>
    var pending: seq<Pending>
    var dailyNet: map<int, real>
    var dayStart: map<int, real>
    var halted: set<int>
    var lossHits: nat
    var curve: seq<EquityPoint>

    /**
     * The broker calls made, what was put off and reported, who is waiting, one page per candle, and what funding each
     * day paid.
     */
    ghost var journal: seq<Call>
    ghost var trace: Trace
    ghost var ids: seq<nat>
    ghost var pages: seq<Page>
    ghost var fundedOn: map<int, real>

    function Sc(): Scenario { Scenario(cfg, candles, inputs) }

    function Ledgers(): Books
      reads this`trades, this`legs, this`dailyNet
    {
      Books(trades, legs, dailyNet)
    }

    ghost function Here(): Story
      reads this`journal, this`trace, safety`seen
    {
      Story(journal, safety.seen, trace.deferred)
    }

    /** The guard follows its rules and knows every trade. */
    ghost predicate Guarded()
      reads this`trades, safety
    {
      safety.Valid() && safety.u == GuardOf(cfg) && TradesIn(safety.seen) == trades
    }

    /**
     * The broker has lived through the journal, which has closed `turn` candles, and the engine's own books agree with
     * it.
     */
    ghost predicate Ready(turn: nat)
      reads this`trades, this`legs, this`dailyNet, this`fundedOn, this`journal, this`trace, broker, safety
    {
      && broker.cfg == cfg.broker && Guarded()
      && Stands(cfg.broker, journal, trace.log, broker.State(), Ledgers(), fundedOn, turn, 0)
    }

    /** The same, whatever the number of candles closed. */
    ghost predicate Sound()
      reads this`trades, this`legs, this`dailyNet, this`fundedOn, this`journal, this`trace, broker, safety
    {
      Ready(TurnAt(journal, |journal|))
    }

    /** Ready, but with the newest report still to be filed. */
    ghost predicate Owing(turn: nat, r: Report)
      reads this`trades, this`legs, this`dailyNet, this`fundedOn, this`journal, this`trace, broker, safety
    {
      && broker.cfg == cfg.broker && Guarded() && journal != [] && journal[|journal| - 1].report == Some(r)
      && Stands(cfg.broker, journal, trace.log, broker.State(), Ledgers(), fundedOn, turn, 1)
    }

    /** The pending list and the reports mirror the trace. */
    ghost predicate Queued(seen: nat, made: nat)
      reads this`trace, this`ids, this`pending, this`reports
    {
      Listing(seen, made, ids, pending)
    }

    /** The halted days are those the kill switch fired on. */
    ghost predicate Halting()
      reads this`trace, this`halted
    {
      halted == FiredDays(candles, trace.fired)
    }

    /** Halfway through the pending list: `kept` stays behind, and the entries from `k` on are still to be visited. */
    ghost predicate Visiting(seen: nat, made: nat, waiting: seq<nat>, kept: seq<Pending>, k: nat)
      requires k <= |ids| && k <= |pending|
      reads this`trace, this`ids, this`pending, this`reports
    {
      Listing(seen, made, waiting + ids[k..], kept + pending[k..])
    }

    /** This list waits. It is stated for all lists equal to it: only a proof that asserts `QueueOk` looks inside. */
    ghost predicate Listing(seen: nat, made: nat, waiting: seq<nat>, left: seq<Pending>)
      reads this`trace, this`reports
    {
      |waiting| == |left| && forall all :: all == waiting ==> QueueOk(candles, seen, made, trace, all, left, reports)
    }

    /** One page and one equity point for each of the first `n` candles. */
    ghost predicate Told(n: nat)
      reads this`journal, this`trace, this`pages, this`dayStart, this`pending, this`curve, safety`seen
    {
      && |pages| == |curve| == n && BacktestPages.Told(Sc(), Here(), trace.fired, pages, dayStart, pending)
      && Plotted(Sc(), Here(), pages, curve)
    }

    constructor (cfg: BacktestConfig, raw: seq<Candle>, inputs: seq<CandleInputs>)
      requires cfg.broker.Valid() && |inputs| == |raw|
      ensures this.cfg == cfg && this.inputs == inputs && |candles| == |raw| && Sorting.SortedBy(candles, ByOpen())
      ensures forall k :: Sorting.WithKey(candles, k, ByOpen()) == Sorting.WithKey(raw, k, ByOpen())
      ensures fresh(broker) && fresh(safety) && Ready(0) && Queued(0, 0) && Halting() && Told(0)
    {
      this.cfg, this.inputs := cfg, inputs;
      candles := Sorting.Sort(raw, ByOpen());
      broker := new Broker(cfg.broker);
      safety := new SafetyState(cfg.safety, cfg.intervalMs, cfg.intervalMs, cfg.broker.startingEquity);
      reports, trades, legs, pending, dailyNet, dayStart := [], [], map[], [], map[], map[];
      halted, lossHits, curve := {}, 0, [];
      journal, trace, ids, pages, fundedOn := [], Trace([], [], map[], {}), [], [], map[];
      new;
      SortedCandles(raw);
      StartStands(cfg.broker);
      QueueStart(candles);
      ToldNothing(Sc());
    }

    // ---------------------------------------------------------------- books

    /** A new trade is listed, and the safety state learns of it. */
    method AddTrade(t: Trade)
      requires Guarded()
      modifies this`trades, safety
      ensures Guarded() && trades == old(trades) + [t] && OnlyTrades(old(safety.seen), safety.seen)
    {
      trades := trades + [t];
      TradesSnoc(safety.seen, SawTrade(t));
      safety.ObserveTrade(t);
    }

    /** `_record_report`: daily results, the open entry fees, the trade list, and what the safety state learns. */
    method Record(r: Report)
      requires Guarded()
      modifies this`trades, this`legs, this`dailyNet, safety
      ensures Guarded() && Ledgers() == Booked(old(Ledgers()), r) && OnlyTrades(old(safety.seen), safety.seen)
      ensures !r.accepted ==> safety.seen == old(safety.seen)
    {
      if r.accepted && r.order.Some? && r.fill.Some? {
        var order := r.order.value;
        dailyNet := DailyWith(dailyNet, r.fill.value);
        if order.action.IsEntry() {
          legs := AddTo(legs, order.pair, r.fill.value.fee);
        } else if order.action.IsExit() && r.position.Some? {
          var t := TradeOf(r, At(legs, order.pair));
          legs := legs - {order.pair};
          AddTrade(t);
        }
      }
    }

    /** Execute a decision and record its report, which is still to be filed. */
    method Process(d: Decision, market: real, ts: int, ghost turn: nat) returns (r: Report)
      requires Ready(turn)
      modifies this`trades, this`legs, this`dailyNet, this`journal, broker, safety
      ensures Owing(turn, r) && r.decision == Some(d) && OrderedAt(r, ts) && Ledgers() == Booked(old(Ledgers()), r)
      ensures (broker.State(), r) == Execute(cfg.broker, old(broker.State()), d, Some(market), ts)
      ensures journal == old(journal) + [Called(old(journal), old(broker.State()), Decided(d, Some(market), ts),
                                                Some(r), broker.State())]
      ensures OnlyTrades(old(safety.seen), safety.seen) && (!r.accepted ==> safety.seen == old(safety.seen))
      ensures EntersPosition(r) ==> d.approved && d.signal.action.IsEntry()
    {
      ghost var a := broker.State();
      DecidedStands(cfg.broker, journal, trace.log, a, Ledgers(), fundedOn, turn, d, Some(market), ts);
      r := broker.ExecuteDecision(d, Some(market), ts);
      Record(r);
      journal := journal + [Called(journal, a, Decided(d, Some(market), ts), Some(r), broker.State())];
    }

    /** Add a report that answers no deferral and enters nothing. */
    method File(r: Report, ghost candle: nat, ghost turn: nat, ghost made: nat)
      requires Owing(turn, r) && Queued(turn, made) && !EntersPosition(r) && candle < |candles|
      modifies this`reports, this`trace
      ensures Ready(turn) && Queued(turn, made) && reports == old(reports) + [r]
      ensures trace.fired == old(trace.fired) && trace.deferred == old(trace.deferred)
    {
      var last := |journal| - 1;
      QueueLogged(candles, turn, made, trace, ids, pending, reports, r, candle, last, journal[last]);
      ReportStands(cfg.broker, journal, trace.log, broker.State(), Ledgers(), fundedOn, turn, r, candle, None);
      reports := reports + [r];
      trace := Logged(trace, r, candle, last, journal[last]);
    }

    /** Value the account at one price. */
    method Snap(pair: string, price: real, ghost turn: nat) returns (s: Snapshot)
      requires Ready(turn)
      modifies this`journal, broker
      ensures Ready(turn) && Passed(old(Here()), Here(), [Marked(map[pair := price])])
      ensures broker.State() == old(broker.State()).(marks := old(broker.marks) + map[pair := price])
      ensures s.equity == Equity(cfg.broker, broker.State())
        && s.tradableEquity == TradableEquity(cfg.broker, broker.State())
      ensures s.tradableBase == broker.tradableBase && s.overrideEnabled == broker.overrideEnabled
      ensures s.openPositions == |broker.positions|
    {
      ghost var a, was := broker.State(), Here();
      MarkedStands(cfg.broker, journal, trace.log, a, Ledgers(), fundedOn, turn, map[pair := price]);
      s := broker.TakeSnapshot(map[pair := price]);
      ghost var call := Called(journal, a, Marked(map[pair := price]), None, broker.State());
      journal := journal + [call];
      PassedCall(was, Here(), call);
    }

    // ---------------------------------------------------------------- the pending list

    lemma {:induction false} VisitBegins(seen: nat, made: nat)
      requires Queued(seen, made)
      ensures Visiting(seen, made, [], [], 0)
    {
      NothingBefore(ids[0..]);
      NothingBefore(pending[0..]);
    }

    lemma {:induction false} VisitEnds(seen: nat, made: nat, waiting: seq<nat>, kept: seq<Pending>)
      requires |ids| == |pending| && Visiting(seen, made, waiting, kept, |pending|)
      ensures Listing(seen, made, waiting, kept)
    {
      assert waiting + ids[|ids|..] == waiting && kept + pending[|pending|..] == kept;
    }

    /** File the report of the pending decision at `k`, executed at this candle's open. */
    method AnswerFilled(n: nat, k: nat, r: Report, ghost kept: seq<Pending>, ghost waiting: seq<nat>)
      requires n < |candles| && k < |pending| == |ids| && |kept| == |waiting| && Visiting(n, n, waiting, kept, k)
      requires Due(candles[n], pending[k]) && Owing(n, r)
      requires journal[|journal| - 1].event == FillOf(candles[n], pending[k])
      requires OrderedAt(r, candles[n].openTime)
      modifies this`reports, this`trace
      ensures Ready(n) && Visiting(n, n, waiting, kept, k + 1)
      ensures trace.fired == old(trace.fired) && trace.deferred == old(trace.deferred)
    {
      var last := |journal| - 1;
      FirstOff(pending, k);
      KeepsWaiting(waiting, ids, k);
      FillOne(candles, n, trace, waiting, ids[k], ids[k + 1..], kept, pending[k..], reports, r, last, journal[last]);
      ReportStands(cfg.broker, journal, trace.log, broker.State(), Ledgers(), fundedOn, n, r, n, Some(ids[k]));
      reports := reports + [r];
      trace := Answered(trace, ids[k], r, n, last, journal[last]);
    }

    /** Execute the pending decision at `k` at this candle's open; those in `kept` stay behind. */
    method FillAt(n: nat, k: nat, ghost kept: seq<Pending>, ghost waiting: seq<nat>)
      requires Ready(n) && n < |candles| && k < |pending| == |ids| && |kept| == |waiting|
      requires Visiting(n, n, waiting, kept, k) && Due(candles[n], pending[k])
      modifies this`reports, this`trades, this`legs, this`dailyNet, this`trace, this`journal, broker, safety
      ensures Ready(n) && Visiting(n, n, waiting, kept, k + 1) && trace.fired == old(trace.fired)
      ensures Passed(old(Here()), Here(), [FillOf(candles[n], pending[k])])
    {
      ghost var was := Here();
      var r := Process(pending[k].decision, candles[n].open, candles[n].openTime, n);
      PassedCall(was, Here(), journal[|journal| - 1]);
      AnswerFilled(n, k, r, kept, waiting);
    }

    /** Visit the pending decision at `k`: execute it if it is due, else keep it. */
    method VisitAt(n: nat, k: nat, before: seq<Pending>, ghost passed: seq<nat>, ghost was: Story)
        returns (kept: seq<Pending>, ghost waiting: seq<nat>)
      requires Ready(n) && n < |candles| && k < |pending| == |ids| && |before| == |passed|
      requires Visiting(n, n, passed, before, k)
      requires before == Left(candles[n], pending, k) && Passed(was, Here(), Fills(candles[n], pending, k))
      modifies this`reports, this`trades, this`legs, this`dailyNet, this`trace, this`journal, broker, safety
      ensures Ready(n) && |kept| == |waiting| && Visiting(n, n, waiting, kept, k + 1) && trace.fired == old(trace.fired)
      ensures kept == Left(candles[n], pending, k + 1) && Passed(was, Here(), Fills(candles[n], pending, k + 1))
    {
      kept, waiting := before, passed;
      if pending[k].generatedAt >= candles[n].openTime {
        KeepsWaiting(kept, pending, k);
        KeepsWaiting(waiting, ids, k);
        kept, waiting := kept + [pending[k]], waiting + [ids[k]];
      } else {
        ghost var so := Here();
        FillAt(n, k, kept, waiting);
        PassedOn(was, so, Here(), Fills(candles[n], pending, k), [FillOf(candles[n], pending[k])]);
      }
    }

    /** The loop of `FillPending`: hand back what keeps waiting. */
    method VisitPending(n: nat) returns (kept: seq<Pending>, ghost waiting: seq<nat>)
      requires Ready(n) && n < |candles| && Queued(n, n)
      modifies this`reports, this`trades, this`legs, this`dailyNet, this`trace, this`journal, broker, safety
      ensures Ready(n) && trace.fired == old(trace.fired) && Listing(n, n, waiting, kept)
      ensures kept == Left(candles[n], pending, |pending|)
      ensures Passed(old(Here()), Here(), Fills(candles[n], pending, |pending|))
    {
      kept, waiting := [], [];
      var k := 0;
      ghost var was := Here();
      PassedNothing(was);
      VisitBegins(n, n);
      while k < |pending|
        invariant 0 <= k <= |pending| == |ids| && |kept| == |waiting|
        invariant Ready(n) && trace.fired == old(trace.fired) && Visiting(n, n, waiting, kept, k)
        invariant kept == Left(candles[n], pending, k) && Passed(was, Here(), Fills(candles[n], pending, k))
      {
        kept, waiting := VisitAt(n, k, kept, waiting, was);
        k := k + 1;
      }
      VisitEnds(n, n, waiting, kept);
    }

    /**
     * `_fill_pending_decisions`: everything generated before this open is executed at it, in order; the rest keeps
     * waiting.
     */
    method FillPending(n: nat)
      requires Ready(n) && n < |candles| && Queued(n, n)
      modifies this`reports, this`trades, this`legs, this`dailyNet, this`pending, this`trace, this`ids, this`journal,
               broker, safety
      ensures Ready(n) && Queued(n + 1, n) && trace.fired == old(trace.fired)
      ensures pending == Left(candles[n], old(pending), |old(pending)|)
      ensures Passed(old(Here()), Here(), Fills(candles[n], old(pending), |old(pending)|))
    {
      LeftWait(candles[n], pending, |pending|);
      ghost var waiting;
      pending, waiting := VisitPending(n);
      ids := waiting;
      QueueAdvances(candles, n, trace, ids, pending, reports);
    }

    // ---------------------------------------------------------------- one candle

    /** `process_candle`, recording what it exits. */
    method RunExits(c: Candle, ghost turn: nat) returns (r: Option<Report>)
      requires Ready(turn)
      modifies this`trades, this`legs, this`dailyNet, this`journal, broker, safety
      ensures (broker.State(), r) == OnCandle(cfg.broker, old(broker.State()), c)
      ensures if r.Some? then Owing(turn + 1, r.value) && !EntersPosition(r.value) else Ready(turn + 1)
      ensures Passed(old(Here()), Here(), [CandleClosed(c)])
    {
      ghost var a, was := broker.State(), Here();
      CandleStands(cfg.broker, journal, trace.log, a, Ledgers(), fundedOn, turn, c);
      r := broker.ProcessCandle(c);
      if r.Some? {
        Record(r.value);
      }
      ghost var call := Called(journal, a, CandleClosed(c), r, broker.State());
      journal := journal + [call];
      PassedCall(was, Here(), call);
    }

    /** The candle's exits and their report. */
    method CloseCandle(n: nat)
      requires Ready(n) && n < |candles| && Queued(n + 1, n)
      modifies this`reports, this`trades, this`legs, this`dailyNet, this`trace, this`journal, broker, safety
      ensures Ready(n + 1) && Queued(n + 1, n) && trace.fired == old(trace.fired)
      ensures broker.State() == OnCandle(cfg.broker, old(broker.State()), candles[n]).0
      ensures Passed(old(Here()), Here(), [CandleClosed(candles[n])])
    {
      var r := RunExits(candles[n], n);
      if r.Some? {
        File(r.value, n, n + 1, n);
      }
    }

    /** Pay funding and take what was paid from the day's result. */
    method BookFunding(prices: map<string, real>, day: int) returns (paid: real)
      modifies this`dailyNet, this`fundedOn, broker
      ensures broker.State() == ApplyFunding(old(broker.State()), prices, cfg.fundingRate)
      ensures paid == broker.fundingPaid - old(broker.fundingPaid)
      ensures Ledgers() == old(Ledgers()).(daily := Charge(old(dailyNet), day, -paid))
      ensures fundedOn == Charge(old(fundedOn), day, paid)
    {
      paid := broker.PayFunding(prices, cfg.fundingRate);
      if paid != 0.0 {
        dailyNet := AddTo(dailyNet, day, -paid);
        fundedOn := AddTo(fundedOn, day, paid);
      }
    }

    /** Pay funding and book it on the given day. */
    method PayFunding(prices: map<string, real>, day: int, ghost turn: nat)
      requires Ready(turn)
      modifies this`dailyNet, this`fundedOn, this`journal, broker
      ensures Ready(turn) && broker.State() == ApplyFunding(old(broker.State()), prices, cfg.fundingRate)
      ensures fundedOn == Charge(old(fundedOn), day, broker.fundingPaid - old(broker.fundingPaid))
      ensures Passed(old(Here()), Here(), [FundingPaid(prices, cfg.fundingRate)])
    {
      ghost var a, was, books, funded := broker.State(), Here(), Ledgers(), fundedOn;
      var paid := BookFunding(prices, day);
      FundingStands(cfg.broker, journal, trace.log, a, broker.State(), books, funded, turn, prices, cfg.fundingRate,
                    day, paid);
      ghost var call := Called(journal, a, FundingPaid(prices, cfg.fundingRate), None, broker.State());
      journal := journal + [call];
      PassedCall(was, Here(), call);
    }

    /** `_apply_funding_if_due`. */
    method PayFundingIfDue(c: Candle, day: int, ghost turn: nat)
      requires Ready(turn)
      modifies this`dailyNet, this`fundedOn, this`journal, broker
      ensures Ready(turn) && Passed(old(Here()), Here(), Funding(cfg, c))
      ensures broker.State() ==
        if FundsAt(cfg, c) then ApplyFunding(old(broker.State()), map[c.pair := c.close], cfg.fundingRate)
          else old(broker.State())
      ensures fundedOn == Charge(old(fundedOn), day, broker.fundingPaid - old(broker.fundingPaid))
    {
      if cfg.fundingRate != 0.0 && AtBoundary(c, cfg.fundingHours) {
        PayFunding(map[c.pair := c.close], day, turn);
      }
    }

    /** `_daily_loss_kill_switch_reached`; the initial equity it checks first is always positive here. */
    method KillSwitchReached(c: Candle, start: real, ghost turn: nat) returns (hit: bool)
      requires Ready(turn)
      modifies this`journal, broker
      ensures Ready(turn) && Passed(old(Here()), Here(), [Marked(map[c.pair := c.close])])
      ensures hit <==> LossReached(cfg, start, broker.State())
      ensures broker.positions == old(broker.positions)
    {
      var s := Snap(c.pair, c.close, turn);
      hit := Max(0.0, start - s.tradableEquity) >= cfg.LossLimit() && !s.overrideEnabled;
    }

    /** Close one open position at the candle's close. */
    method ForceCloseOne(n: nat, pair: string, reason: Reason, ghost turn: nat, ghost made: nat)
      requires Ready(turn) && n < |candles| && Queued(turn, made) && pair in broker.positions
      modifies this`reports, this`trades, this`legs, this`dailyNet, this`trace, this`journal, broker, safety
      ensures Ready(turn) && Queued(turn, made) && trace.fired == old(trace.fired)
      ensures broker.positions == if candles[n].close > 0.0 then old(broker.positions) - {pair}
        else old(broker.positions)
      ensures Passed(old(Here()), Here(),
                     [Decided(Forced(old(broker.positions)[pair], candles[n], reason), Some(candles[n].close),
                              candles[n].closeTime)])
    {
      ghost var was := Here();
      var c := candles[n];
      StandsNow(cfg.broker, journal, trace.log, broker.State(), Ledgers(), fundedOn, turn, 0);
      ForcedClose(cfg.broker, broker.State(), pair, c, reason);
      var r := Process(Forced(broker.positions[pair], c, reason), c.close, c.closeTime, turn);
      PassedCall(was, Here(), journal[|journal| - 1]);
      File(r, n, turn, made);
    }

    /** `_force_close_open_positions`: everything is closed exactly when the close is positive. */
    method ForceClose(n: nat, reason: Reason, ghost turn: nat, ghost made: nat)
      requires Ready(turn) && n < |candles| && Queued(turn, made)
      modifies this`reports, this`trades, this`legs, this`dailyNet, this`trace, this`journal, broker, safety
      ensures Ready(turn) && Queued(turn, made) && trace.fired == old(trace.fired)
      ensures ClosedOut(old(Here()), Here(), candles[n], reason)
      ensures broker.positions == if candles[n].close > 0.0 then map[] else old(broker.positions)
    {
      ghost var was := Here();
      var rest := broker.positions.Keys;
      while rest != {}
        invariant Ready(turn) && Queued(turn, made) && trace.fired == old(trace.fired)
        invariant ClosedOut(was, Here(), candles[n], reason)
        invariant rest <= broker.positions.Keys
        invariant candles[n].close > 0.0 ==> rest == broker.positions.Keys
        invariant candles[n].close <= 0.0 ==> broker.positions == old(broker.positions)
        decreases |rest|
      {
        var pair :| pair in rest;
        ghost var so, p := Here(), broker.positions[pair];
        ForceCloseOne(n, pair, reason, turn, made);
        ClosedOne(was, so, Here(), candles[n], reason, p);
        rest := rest - {pair};
      }
    }

    /** `_update_dynamic_exits`. */
    method ManageStops(c: Candle, input: CandleInputs, ghost turn: nat) returns (raised: bool)
      requires Ready(turn)
      modifies this`journal, broker
      ensures Ready(turn) && broker.positions.Keys == old(broker.positions.Keys)
      ensures raised == (cfg.dynamicExits
        && ManageExits(cfg.broker, old(broker.State()), c, input.atr, cfg.exits, input.band).Raises?)
      ensures !raised ==> Passed(old(Here()), Here(), Managing(cfg, c, input))
      ensures broker.State() == if cfg.dynamicExits && !raised
        then ManageExits(cfg.broker, old(broker.State()), c, input.atr, cfg.exits, input.band).value
          else old(broker.State())
    {
      raised := false;
      if cfg.dynamicExits {
        ghost var a, was := broker.State(), Here();
        raised := broker.UpdateDynamicAtrExits(c, input.atr, cfg.exits, input.band);
        if !raised {
          ManagedStands(cfg.broker, journal, trace.log, a, Ledgers(), fundedOn, turn, c, input.atr, cfg.exits,
                        input.band);
          ghost var call := Called(journal, a, ExitsManaged(c, input.atr, cfg.exits, input.band), None, broker.State());
          journal := journal + [call];
          PassedCall(was, Here(), call);
        }
      }
    }

    /** What becomes of a decision before it is deferred: the post-profit guard, then the cooldowns. */
    method Guard(d: Decision, c: Candle, atr: Option<real>) returns (g: Decision)
      requires Guarded()
      modifies safety
      ensures Guarded() && safety.seen == old(safety.seen) + [Tried(d, c, atr)]
      ensures g == Verdict(GuardOf(cfg), old(safety.seen), d, c, atr)
    {
      TradesSnoc(safety.seen, Tried(d, c, atr));
      var blocked := safety.Try(d, c, atr);
      g := if blocked then Rejection(d.signal) else d;
    }

    method Defer(n: nat, k: nat, d: Decision)
      requires n < |candles| && Queued(n + 1, n + 1) && Halting() && Day(candles[n].closeTime) !in halted
      modifies this`pending, this`trace, this`ids
      ensures Queued(n + 1, n + 1) && Halting() && trace.fired == old(trace.fired) && trace.log == old(trace.log)
      ensures trace.deferred == old(trace.deferred) + [Deferral(d, candles[n].closeTime, n, k)]
      ensures pending == old(pending) + [Pending(d, candles[n].closeTime)]
    {
      QueueDeferred(candles, n, trace, ids, pending, reports, d, k);
      trace, ids := Deferred(trace, Deferral(d, candles[n].closeTime, n, k)), ids + [|trace.deferred|];
      pending := pending + [Pending(d, candles[n].closeTime)];
    }

    /** Executing a decision that is not deferred: the broker refuses it and nothing is traded. */
    method ProcessRefused(d: Decision, c: Candle, ghost turn: nat) returns (r: Report)
      requires Ready(turn) && !Defers(d)
      modifies this`trades, this`legs, this`dailyNet, this`journal, broker, safety
      ensures Owing(turn, r) && !r.accepted && r.decision == Some(d)
      ensures journal[|journal| - 1].event == Decided(d, Some(c.close), c.closeTime)
      ensures Passed(old(Here()), Here(), [Decided(d, Some(c.close), c.closeTime)]) && safety.seen == old(safety.seen)
      ensures broker.positions == old(broker.positions) && Ledgers() == old(Ledgers())
    {
      ghost var was := Here();
      StandsNow(cfg.broker, journal, trace.log, broker.State(), Ledgers(), fundedOn, turn, 0);
      DirectIsRefused(cfg.broker, broker.State(), d, c.close, c.closeTime);
      r := Process(d, c.close, c.closeTime, turn);
      PassedCall(was, Here(), journal[|journal| - 1]);
    }

    /** A decision that is not deferred is executed, and refused, at the close. */
    method ExecuteDirect(n: nat, d: Decision)
      requires Ready(n + 1) && n < |candles| && Queued(n + 1, n + 1) && !Defers(d)
      modifies this`reports, this`trades, this`legs, this`dailyNet, this`trace, this`journal, broker, safety
      ensures Ready(n + 1) && Queued(n + 1, n + 1) && trace.fired == old(trace.fired)
        && trace.deferred == old(trace.deferred)
      ensures Passed(old(Here()), Here(), [Decided(d, Some(candles[n].close), candles[n].closeTime)])
      ensures safety.seen == old(safety.seen) && broker.positions == old(broker.positions)
        && Ledgers() == old(Ledgers())
    {
      var r := ProcessRefused(d, candles[n], n + 1);
      File(r, n, n + 1, n + 1);
    }

    /** Put off the candle's `k`-th decision. */
    method PutOff(n: nat, k: nat, g: Decision, ghost was: Story, ghost so: Story)
      requires Ready(n + 1) && Sc().Covers(n) && k < |inputs[n].decisions| && Queued(n + 1, n + 1)
      requires Halting() && Day(candles[n].closeTime) !in halted && Triaged(Sc(), n, k, was, so) && Defers(g)
      requires g == Verdict(GuardOf(cfg), so.seen, inputs[n].decisions[k], candles[n], inputs[n].atr)
      requires Here() == so.(seen := so.seen + [Tried(inputs[n].decisions[k], candles[n], inputs[n].atr)])
      modifies this`pending, this`trace, this`ids
      ensures Ready(n + 1) && Queued(n + 1, n + 1) && Halting() && trace.fired == old(trace.fired)
      ensures Triaged(Sc(), n, k + 1, was, Here()) && PutAlike(so.deferred, trace.deferred, old(pending), pending)
    {
      Defer(n, k, g);
      TriagedPut(Sc(), n, k, was, so, Here(), g);
      OnePut(so.deferred, trace.deferred[|so.deferred|], old(pending));
    }

    /** Turn down the candle's `k`-th decision. */
    method TurnDown(n: nat, k: nat, g: Decision, ghost was: Story, ghost so: Story)
      requires Ready(n + 1) && Sc().Covers(n) && k < |inputs[n].decisions| && Queued(n + 1, n + 1)
      requires Triaged(Sc(), n, k, was, so) && !Defers(g)
      requires g == Verdict(GuardOf(cfg), so.seen, inputs[n].decisions[k], candles[n], inputs[n].atr)
      requires Here() == so.(seen := so.seen + [Tried(inputs[n].decisions[k], candles[n], inputs[n].atr)])
      modifies this`reports, this`trades, this`legs, this`dailyNet, this`trace, this`journal, broker, safety
      ensures Ready(n + 1) && Queued(n + 1, n + 1) && trace.fired == old(trace.fired)
      ensures Triaged(Sc(), n, k + 1, was, Here()) && PutAlike(so.deferred, trace.deferred, pending, pending)
      ensures broker.positions == old(broker.positions) && Ledgers() == old(Ledgers())
    {
      ExecuteDirect(n, g);
      TriagedOut(Sc(), n, k, was, so, Here(), g);
      NonePut(so.deferred, pending);
    }

    /** Follow up the guard's verdict on the candle's `k`-th decision. */
    method FollowUp(n: nat, k: nat, g: Decision, ghost was: Story, ghost so: Story)
      requires Ready(n + 1) && Sc().Covers(n) && k < |inputs[n].decisions| && Queued(n + 1, n + 1)
      requires Halting() && Day(candles[n].closeTime) !in halted && Triaged(Sc(), n, k, was, so)
      requires g == Verdict(GuardOf(cfg), so.seen, inputs[n].decisions[k], candles[n], inputs[n].atr)
      requires Here() == so.(seen := so.seen + [Tried(inputs[n].decisions[k], candles[n], inputs[n].atr)])
      modifies this`reports, this`trades, this`legs, this`dailyNet, this`pending, this`trace, this`ids, this`journal,
               broker, safety
      ensures Ready(n + 1) && Queued(n + 1, n + 1) && Halting() && trace.fired == old(trace.fired)
      ensures Triaged(Sc(), n, k + 1, was, Here()) && PutAlike(so.deferred, trace.deferred, old(pending), pending)
      ensures broker.positions == old(broker.positions) && Ledgers() == old(Ledgers())
    {
      if Defers(g) {
        PutOff(n, k, g, was, so);
      } else {
        TurnDown(n, k, g, was, so);
      }
    }

    /** The candle's `k`-th decision: deferred exactly when it trades and no guard blocks it, else refused. */
    method Decide(n: nat, k: nat, ghost was: Story)
      requires Ready(n + 1) && Sc().Covers(n) && k < |inputs[n].decisions| && Queued(n + 1, n + 1)
      requires Halting() && Day(candles[n].closeTime) !in halted && Triaged(Sc(), n, k, was, Here())
      modifies this`reports, this`trades, this`legs, this`dailyNet, this`pending, this`trace, this`ids, this`journal,
               broker, safety
      ensures Ready(n + 1) && Queued(n + 1, n + 1) && Halting() && trace.fired == old(trace.fired)
      ensures Triaged(Sc(), n, k + 1, was, Here())
      ensures PutAlike(old(trace.deferred), trace.deferred, old(pending), pending)
      ensures broker.positions == old(broker.positions) && Ledgers() == old(Ledgers())
    {
      ghost var so := Here();
      var g := Guard(inputs[n].decisions[k], candles[n], inputs[n].atr);
      FollowUp(n, k, g, was, so);
    }

    method DecideAll(n: nat)
      requires Ready(n + 1) && Sc().Covers(n) && Queued(n + 1, n + 1) && Halting()
        && Day(candles[n].closeTime) !in halted
      modifies this`reports, this`trades, this`legs, this`dailyNet, this`pending, this`trace, this`ids, this`journal,
               broker, safety
      ensures Ready(n + 1) && Queued(n + 1, n + 1) && Halting() && trace.fired == old(trace.fired)
      ensures Triaged(Sc(), n, |inputs[n].decisions|, old(Here()), Here())
      ensures PutAlike(old(trace.deferred), trace.deferred, old(pending), pending)
      ensures broker.positions == old(broker.positions) && Ledgers() == old(Ledgers())
    {
      ghost var was, waiting := Here(), pending;
      TriagedNone(Sc(), n, was);
      NonePut(trace.deferred, pending);
      for k := 0 to |inputs[n].decisions|
        invariant Ready(n + 1) && Queued(n + 1, n + 1) && Halting() && trace.fired == old(trace.fired)
        invariant Triaged(Sc(), n, k, was, Here())
        invariant PutAlike(was.deferred, trace.deferred, waiting, pending)
        invariant broker.positions == old(broker.positions) && Ledgers() == old(Ledgers())
      {
        ghost var so, left := trace.deferred, pending;
        Decide(n, k, was);
        MorePut(was.deferred, so, trace.deferred, waiting, left, pending);
      }
    }

    /** Value the account at the candle's close and add the point to the curve. */
    method AppendPoint(n: nat)
      requires Ready(n + 1) && n < |candles|
      modifies this`curve, this`journal, broker
      ensures Ready(n + 1) && Passed(old(Here()), Here(), [Marked(map[candles[n].pair := candles[n].close])])
      ensures broker.positions == old(broker.positions)
      ensures curve == old(curve) + [PointOf(cfg.broker, candles[n], broker.State())]
    {
      var c := candles[n];
      var s := Snap(c.pair, c.close, n + 1);
      curve := curve + [EquityPoint(c.closeTime, c.close, s.equity, s.openPositions)];
    }

    /** The day's starting base, taken at the day's first open. */
    method StartDay(n: nat)
      requires Ready(n) && n < |candles|
      modifies this`dayStart, this`journal, broker
      ensures Ready(n) && broker.positions == old(broker.positions)
      ensures dayStart == Begun(old(dayStart), Day(candles[n].closeTime), old(broker.tradableBase))
      ensures Passed(old(Here()), Here(), DayMark(cfg, candles[n], Day(candles[n].closeTime) in old(dayStart)))
    {
      if Day(candles[n].closeTime) !in dayStart {
        var s := Snap(cfg.pair, candles[n].open, n);
        dayStart := dayStart[Day(candles[n].closeTime) := s.tradableBase];
      } else {
        PassedNothing(Here());
      }
    }

    /** Value the account at the close for the safety state. */
    method ObserveClose(c: Candle, ghost turn: nat)
      requires Ready(turn)
      modifies this`journal, broker, safety
      ensures Ready(turn) && broker.positions == old(broker.positions)
      ensures Passed(old(Here()), Here().(seen := old(safety.seen)), [Marked(map[cfg.pair := c.close])])
      ensures safety.seen == old(safety.seen) + [SawCandle(c, Equity(cfg.broker, broker.State()))]
    {
      var s := Snap(cfg.pair, c.close, turn);
      TradesSnoc(safety.seen, SawCandle(c, s.equity));
      safety.ObserveCandle(c, s.equity);
    }

    /** The candle's open: the day's starting base, then the waiting decisions. */
    method OpenCandle(n: nat)
      requires Ready(n) && Sc().Covers(n) && Queued(n, n)
      modifies this`reports, this`trades, this`legs, this`dailyNet, this`dayStart, this`pending, this`trace, this`ids,
               this`journal, broker, safety
      ensures Ready(n) && Queued(n + 1, n) && trace.fired == old(trace.fired)
      ensures dayStart == Begun(old(dayStart), Day(candles[n].closeTime), old(broker.tradableBase))
      ensures pending == Left(candles[n], old(pending), |old(pending)|)
      ensures Opened(Sc(), n, Day(candles[n].closeTime) in old(dayStart), old(pending), old(Here()), Here())
    {
      ghost var a, begun := Here(), Day(candles[n].closeTime) in dayStart;
      StartDay(n);
      ghost var m, waiting := Here(), pending;
      FillPending(n);
      PassedOn(a, m, Here(), DayMark(cfg, candles[n], begun), Fills(candles[n], waiting, |waiting|));
    }

    /** The candle's exits, then funding. */
    method CloseAndFund(n: nat)
      requires Ready(n) && n < |candles| && Queued(n + 1, n)
      modifies this`reports, this`trades, this`legs, this`dailyNet, this`fundedOn, this`trace, this`journal, broker,
               safety
      ensures Ready(n + 1) && Queued(n + 1, n) && trace.fired == old(trace.fired)
      ensures Passed(old(Here()), Here(), [CandleClosed(candles[n])] + Funding(cfg, candles[n]))
    {
      ghost var a := Here();
      CloseCandle(n);
      ghost var m := Here();
      PayFundingIfDue(candles[n], Day(candles[n].closeTime), n + 1);
      PassedOn(a, m, Here(), [CandleClosed(candles[n])], Funding(cfg, candles[n]));
    }

    /** The candle's exits, then funding, then the safety state: everything before the kill switch is checked. */
    method SettleCandle(n: nat)
      requires Ready(n) && Sc().Covers(n) && Queued(n + 1, n)
      modifies this`reports, this`trades, this`legs, this`dailyNet, this`fundedOn, this`trace, this`journal, broker,
               safety
      ensures Ready(n + 1) && Queued(n + 1, n) && trace.fired == old(trace.fired)
      ensures Settled(Sc(), n, old(Here()), Here())
    {
      ghost var a := Here();
      CloseAndFund(n);
      ghost var m := Here();
      ObserveClose(candles[n], n + 1);
      StandsNow(cfg.broker, journal, trace.log, broker.State(), Ledgers(), fundedOn, n + 1, 0);
      SettledOn(Sc(), n, a, m, Here());
    }

    method HaltDay(n: nat)
      requires n < |candles| && Queued(n + 1, n) && Halting()
      modifies this`halted, this`lossHits, this`trace
      ensures Queued(n + 1, n) && Halting() && trace == old(trace).(fired := old(trace.fired) + {n})
      ensures lossHits == old(lossHits) + 1
    {
      QueueFired(candles, n, trace, ids, pending, reports);
      lossHits := lossHits + 1;
      halted := halted + {Day(candles[n].closeTime)};
      trace := Fired(trace, n);
    }

    method ShutDown(n: nat)
      requires Ready(n + 1) && n < |candles| && Queued(n + 1, n) && Halting()
      modifies this`reports, this`trades, this`legs, this`dailyNet, this`halted, this`lossHits, this`trace,
               this`journal, broker, safety
      ensures Ready(n + 1) && Queued(n + 1, n) && Halting() && trace.fired == old(trace.fired) + {n}
      ensures ClosedOut(old(Here()), Here(), candles[n], KillSwitch)
      ensures broker.positions == if candles[n].close > 0.0 then map[] else old(broker.positions)
      ensures lossHits == old(lossHits) + 1
    {
      ForceClose(n, KillSwitch, n + 1, n);
      HaltDay(n);
    }

    /** The kill switch fires exactly when the day has lost its limit; it closes everything and halts the day. */
    method CheckKillSwitch(n: nat)
      requires Ready(n + 1) && Sc().Covers(n) && Queued(n + 1, n) && Halting()
      requires Day(candles[n].closeTime) in dayStart && n !in trace.fired
      modifies this`reports, this`trades, this`legs, this`dailyNet, this`halted, this`lossHits, this`trace,
               this`journal, broker, safety
      ensures Ready(n + 1) && Queued(n + 1, n) && Halting()
      ensures Switched(Sc(), n, dayStart[Day(candles[n].closeTime)], trace.fired, old(Here()), Here())
      ensures trace.fired == old(trace.fired) + if n in trace.fired then {n} else {}
      ensures broker.positions == if n in trace.fired && candles[n].close > 0.0 then map[] else old(broker.positions)
      ensures lossHits == old(lossHits) + if n in trace.fired then 1 else 0
    {
      ghost var a, base := Here(), dayStart[Day(candles[n].closeTime)];
      StandsNow(cfg.broker, journal, trace.log, broker.State(), Ledgers(), fundedOn, n + 1, 0);
      var hit := KillSwitchReached(candles[n], dayStart[Day(candles[n].closeTime)], n + 1);
      StandsNow(cfg.broker, journal, trace.log, broker.State(), Ledgers(), fundedOn, n + 1, 0);
      ghost var m := Here();
      if hit {
        ShutDown(n);
        StandsNow(cfg.broker, journal, trace.log, broker.State(), Ledgers(), fundedOn, n + 1, 0);
      }
      SwitchedOn(Sc(), n, base, trace.fired, a, m, Here());
    }

    /** On a day that trades: manage the stops, then defer or refuse every decision. */
    method TradeDay(n: nat) returns (raised: bool)
      requires Ready(n + 1) && Sc().Covers(n) && Queued(n + 1, n) && Halting() && Day(candles[n].closeTime) !in halted
      requires !HaltedAt(candles, trace.fired, n)
      modifies this`reports, this`trades, this`legs, this`dailyNet, this`pending, this`trace, this`ids, this`journal,
               broker, safety
      ensures Ready(n + 1) && Queued(n + 1, n + 1) && Halting() && trace.fired == old(trace.fired)
        && Ledgers() == old(Ledgers())
      ensures broker.positions.Keys == old(broker.positions.Keys)
      ensures raised ==> cfg.dynamicExits
      ensures !raised ==> Handled(Sc(), n, trace.fired, old(Here()), Here())
      ensures !raised ==> PutAlike(old(trace.deferred), trace.deferred, old(pending), pending)
    {
      ghost var a := Here();
      QueueMade(candles, n, trace, ids, pending, reports);
      raised := ManageStops(candles[n], inputs[n], n + 1);
      if !raised {
        ghost var m := Here();
        DecideAll(n);
        HandledOn(Sc(), n, trace.fired, a, m, Here());
      }
    }

    /** A halted day does nothing more; any other manages stops and takes decisions. */
    method FinishCandle(n: nat) returns (raised: bool)
      requires Ready(n + 1) && Sc().Covers(n) && Queued(n + 1, n) && Halting()
      modifies this`reports, this`trades, this`legs, this`dailyNet, this`pending, this`trace, this`ids, this`journal,
               broker, safety
      ensures Ready(n + 1) && Queued(n + 1, n + 1) && Halting() && trace.fired == old(trace.fired)
        && Ledgers() == old(Ledgers())
      ensures broker.positions.Keys == old(broker.positions.Keys)
      ensures HaltedAt(candles, trace.fired, n) ==> !raised && pending == old(pending)
      ensures raised ==> cfg.dynamicExits
      ensures !raised ==> Handled(Sc(), n, trace.fired, old(Here()), Here())
      ensures !raised ==> PutAlike(old(trace.deferred), trace.deferred, old(pending), pending)
    {
      raised := false;
      QueueFirings(candles, n + 1, n, trace, ids, pending, reports);
      HaltedIsFiredDay(candles, trace.fired, n);
      if Day(candles[n].closeTime) in halted {
        QueueMade(candles, n, trace, ids, pending, reports);
        NonePut(trace.deferred, pending);
        HandledNothing(Sc(), n, trace.fired, Here());
      } else {
        raised := TradeDay(n);
      }
    }

    /** Everything before the kill switch is checked. */
    method OpenAndSettle(n: nat) returns (ghost b: Story)
      requires Ready(n) && Sc().Covers(n) && Queued(n, n)
      modifies this`reports, this`trades, this`legs, this`dailyNet, this`fundedOn, this`dayStart, this`pending,
               this`trace, this`ids, this`journal, broker, safety
      ensures Ready(n + 1) && Queued(n + 1, n) && trace.fired == old(trace.fired)
      ensures dayStart == Begun(old(dayStart), Day(candles[n].closeTime), old(broker.tradableBase))
      ensures pending == Left(candles[n], old(pending), |old(pending)|)
      ensures Opened(Sc(), n, Day(candles[n].closeTime) in old(dayStart), old(pending), old(Here()), b)
        && Settled(Sc(), n, b, Here())
    {
      OpenCandle(n);
      b := Here();
      SettleCandle(n);
    }

    /** The kill switch is checked after the other phases. */
    method SwitchAfter(n: nat, ghost left: seq<Pending>, ghost begun: bool, ghost a: Story, ghost b: Story)
      requires Ready(n + 1) && Sc().Covers(n) && Queued(n + 1, n) && Halting() && |pages| == n && n !in trace.fired
      requires begun == BegunBefore(candles, n) && Opened(Sc(), n, begun, left, a, b) && Settled(Sc(), n, b, Here())
      requires Day(candles[n].closeTime) in dayStart && dayStart[Day(candles[n].closeTime)] == BaseToday(Sc(), a, pages)
      modifies this`reports, this`trades, this`legs, this`dailyNet, this`halted, this`lossHits, this`trace,
               this`journal, broker, safety
      ensures Ready(n + 1) && Queued(n + 1, n) && Halting()
      ensures Begins(Sc(), pages, left, trace.fired, a, b, old(Here()), Here())
      ensures trace.fired == old(trace.fired) + if n in trace.fired then {n} else {}
      ensures broker.positions == if n in trace.fired && candles[n].close > 0.0 then map[] else old(broker.positions)
    {
      ghost var c := Here();
      CheckKillSwitch(n);
      BeginsOn(Sc(), pages, left, trace.fired, begun, dayStart[Day(candles[n].closeTime)], a, b, c, Here());
    }

    /** The base the candle's day begins with is the one read at its first open. */
    lemma TodayBegins(n: nat)
      requires Ready(n) && Sc().Covers(n) && |pages| == n
      requires BacktestPages.Told(Sc(), Here(), trace.fired, pages, dayStart, pending)
      ensures Here().Now(cfg.broker).tradableBase == broker.tradableBase
      ensures var day := Day(candles[n].closeTime);
        && (day in dayStart <==> BegunBefore(candles, n))
        && Begun(dayStart, day, broker.tradableBase)[day] == BaseToday(Sc(), Here(), pages)
    {
      StandsNow(cfg.broker, journal, trace.log, broker.State(), Ledgers(), fundedOn, n, 0);
      DayToday(Sc(), Here(), trace.fired, pages, dayStart, pending);
    }

    /** The candle up to and including the kill switch. */
    method ProcessCandle(n: nat) returns (ghost b: Story, ghost c: Story)
      requires Ready(n) && Sc().Covers(n) && Queued(n, n) && Halting() && n !in trace.fired
      requires |pages| == n && BacktestPages.Told(Sc(), Here(), trace.fired, pages, dayStart, pending)
      modifies this`reports, this`trades, this`legs, this`dailyNet, this`fundedOn, this`dayStart, this`pending,
               this`trace, this`ids, this`halted, this`lossHits, this`journal, broker, safety
      ensures Ready(n + 1) && Queued(n + 1, n) && Halting()
      ensures trace.fired == old(trace.fired) + if n in trace.fired then {n} else {}
      ensures dayStart == Begun(old(dayStart), Day(candles[n].closeTime), old(Here()).Now(cfg.broker).tradableBase)
      ensures pending == Left(candles[n], old(pending), |old(pending)|)
      ensures Begins(Sc(), pages, old(pending), trace.fired, old(Here()), b, c, Here())
    {
      TodayBegins(n);
      ghost var a, left, begun := Here(), pending, Day(candles[n].closeTime) in dayStart;
      b := OpenAndSettle(n);
      c := Here();
      SwitchAfter(n, left, begun, a, b);
    }

    /** The candle without its equity point. */
    method RunCandle(n: nat) returns (raised: bool, ghost b: Story, ghost c: Story, ghost d: Story)
      requires Ready(n) && Sc().Covers(n) && Queued(n, n) && Halting()
      requires |pages| == n && BacktestPages.Told(Sc(), Here(), trace.fired, pages, dayStart, pending)
      modifies this`reports, this`trades, this`legs, this`dailyNet, this`fundedOn, this`dayStart, this`pending,
               this`trace, this`ids, this`halted, this`lossHits, this`journal, broker, safety
      ensures Ready(n + 1) && Queued(n + 1, n + 1) && Halting()
      ensures trace.fired == old(trace.fired) || trace.fired == old(trace.fired) + {n}
      ensures dayStart == Begun(old(dayStart), Day(candles[n].closeTime), old(Here()).Now(cfg.broker).tradableBase)
      ensures Begins(Sc(), pages, old(pending), trace.fired, old(Here()), b, c, d)
      ensures raised ==> cfg.dynamicExits
      ensures !raised ==> Handled(Sc(), n, trace.fired, d, Here())
      ensures !raised ==> PutAlike(d.deferred, trace.deferred, Left(candles[n], old(pending), |old(pending)|), pending)
    {
      QueueFirings(candles, n, n, trace, ids, pending, reports);
      b, c := ProcessCandle(n);
      d := Here();
      raised := FinishCandle(n);
    }

    /** The candle's equity point is taken and its page written. */
    method TurnPage(n: nat, ghost before: set<nat>, ghost days: map<int, real>, ghost left: seq<Pending>,
                    ghost a: Story, ghost b: Story, ghost c: Story, ghost d: Story)
      requires Ready(n + 1) && Sc().Covers(n) && |pages| == |curve| == n
      requires BacktestPages.Told(Sc(), a, before, pages, days, left) && Plotted(Sc(), a, pages, curve)
      requires trace.fired == before || trace.fired == before + {n}
      requires Begins(Sc(), pages, left, trace.fired, a, b, c, d) && Handled(Sc(), n, trace.fired, d, Here())
      requires PutAlike(d.deferred, trace.deferred, Left(candles[n], left, |left|), pending)
      requires dayStart == Begun(days, Day(candles[n].closeTime), a.Now(cfg.broker).tradableBase)
      modifies this`curve, this`journal, this`pages, broker
      ensures Ready(n + 1) && Told(n + 1)
    {
      ghost var m, shown := Here(), curve;
      AppendPoint(n);
      StandsNow(cfg.broker, journal, trace.log, broker.State(), Ledgers(), fundedOn, n + 1, 0);
      ghost var page := PageTurned(Sc(), before, trace.fired, pages, shown, days, left, pending, a, b, c, d, m, Here());
      pages := pages + [page];
    }

    /** One turn of the loop of `run`: one more candle, one more page. */
    method Advance(n: nat) returns (raised: bool)
      requires Ready(n) && Sc().Covers(n) && Queued(n, n) && Halting() && Told(n)
      modifies this, broker, safety
      ensures Ready(n + 1) && (raised ==> cfg.dynamicExits)
      ensures !raised ==> Queued(n + 1, n + 1) && Halting() && Told(n + 1)
    {
      ghost var a, before, left, days := Here(), trace.fired, pending, dayStart;
      ghost var b, c, d;
      raised, b, c, d := RunCandle(n);
      if !raised {
        TurnPage(n, before, days, left, a, b, c, d);
      }
    }

    // ---------------------------------------------------------------- the whole run

    /** File the refusal of the pending decision at `k`. */
    method AnswerRefused(k: nat, r: Report)
      requires candles != [] && k < |pending| == |ids| && Visiting(|candles|, |candles|, [], [], k)
        && Owing(|candles|, r)
      requires !r.accepted && journal[|journal| - 1].event == LeftoverOf(candles[|candles| - 1], pending[k])
      modifies this`reports, this`trace
      ensures Ready(|candles|) && Visiting(|candles|, |candles|, [], [], k + 1)
      ensures trace.fired == old(trace.fired) && trace.deferred == old(trace.deferred)
    {
      var last := |journal| - 1;
      FirstOff(pending, k);
      KeepsWaiting([], ids, k);
      RejectOne(candles, trace, [], ids[k], ids[k + 1..], [], pending[k..], reports, r, last, journal[last]);
      ReportStands(cfg.broker, journal, trace.log, broker.State(), Ledgers(), fundedOn, |candles|, r, |candles| - 1,
                   Some(ids[k]));
      reports := reports + [r];
      trace := Answered(trace, ids[k], r, |candles| - 1, last, journal[last]);
    }

    /** Reject the pending decision at `k`: the run is over. */
    method RejectAt(k: nat)
      requires Ready(|candles|) && candles != [] && k < |pending| == |ids| && Visiting(|candles|, |candles|, [], [], k)
      modifies this`reports, this`trades, this`legs, this`dailyNet, this`trace, this`journal, broker, safety
      ensures Ready(|candles|) && trace.fired == old(trace.fired) && Visiting(|candles|, |candles|, [], [], k + 1)
      ensures Passed(old(Here()), Here(), [LeftoverOf(candles[|candles| - 1], pending[k])])
        && safety.seen == old(safety.seen)
      ensures broker.positions == old(broker.positions) && Ledgers() == old(Ledgers())
    {
      var r := ProcessRefused(Rejection(pending[k].decision.signal), candles[|candles| - 1], |candles|);
      AnswerRefused(k, r);
    }

    /** `_reject_unfilled_pending_decisions`. */
    method RejectLeftovers()
      requires Ready(|candles|) && candles != [] && Queued(|candles|, |candles|)
      modifies this`reports, this`trades, this`legs, this`dailyNet, this`pending, this`trace, this`ids, this`journal,
               broker, safety
      ensures Ready(|candles|) && Queued(|candles|, |candles|) && trace.fired == old(trace.fired) && pending == []
      ensures Passed(old(Here()), Here(), Leftovers(candles[|candles| - 1], old(pending), |old(pending)|))
      ensures safety.seen == old(safety.seen)
      ensures broker.positions == old(broker.positions) && Ledgers() == old(Ledgers())
    {
      ghost var was := Here();
      ghost var c := candles[|candles| - 1];
      var k := 0;
      PassedNothing(was);
      VisitBegins(|candles|, |candles|);
      while k < |pending|
        invariant 0 <= k <= |pending| == |ids| && pending == old(pending)
        invariant Ready(|candles|) && trace.fired == old(trace.fired) && Visiting(|candles|, |candles|, [], [], k)
        invariant Passed(was, Here(), Leftovers(c, pending, k)) && safety.seen == was.seen
        invariant broker.positions == old(broker.positions) && Ledgers() == old(Ledgers())
      {
        ghost var so := Here();
        RejectAt(k);
        PassedOn(was, so, Here(), Leftovers(c, pending, k), [LeftoverOf(c, pending[k])]);
        k := k + 1;
      }
      VisitEnds(|candles|, |candles|, [], []);
      ids, pending := [], [];
    }

    /** `for candle in all_candles`. */
    method Loop() returns (raised: bool)
      requires Ready(0) && |inputs| == |candles| && Queued(0, 0) && Halting() && Told(0)
      modifies this, broker, safety
      ensures Sound() && (raised ==> cfg.dynamicExits)
      ensures !raised ==>
        Ready(|candles|) && Queued(|candles|, |candles|) && Halting() && Told(|candles|)
    {
      raised := false;
      for n := 0 to |candles|
        invariant Ready(n) && Queued(n, n) && Halting() && Told(n)
      {
        raised := Advance(n);
        if raised {
          return;
        }
      }
    }

    /** The last equity point is taken again after the final close. */
    method ReplaceLastPoint(ghost s: Story, ghost left: seq<Pending>)
      requires Ready(|candles|) && candles != [] && |curve| == |candles|
      requires Concluded(s, Here(), candles[|candles| - 1], left)
      modifies this`curve, this`journal, broker
      ensures Ready(|candles|) && broker.positions == old(broker.positions)
      ensures Concluded(s, Here(), candles[|candles| - 1], left)
      ensures |curve| == |candles| && curve[..|candles| - 1] == old(curve)[..|candles| - 1]
      ensures curve[|candles| - 1] == PointOf(cfg.broker, candles[|candles| - 1], broker.State())
    {
      var c := candles[|candles| - 1];
      ghost var t := Here();
      var snap := Snap(c.pair, c.close, |candles|);
      ConcludedMarked(s, t, Here(), c, left, map[c.pair := c.close]);
      var point := EquityPoint(c.closeTime, c.close, snap.equity, snap.openPositions);
      curve := curve[..|curve| - 1] + [point];
    }

    /** Close everything at the last close and retake the last equity point. */
    method CloseAtEnd(ghost s: Story, ghost left: seq<Pending>)
      requires Ready(|candles|) && candles != [] && Queued(|candles|, |candles|) && |curve| == |candles|
      requires Passed(s, Here(), Leftovers(candles[|candles| - 1], left, |left|)) && safety.seen == s.seen
      modifies this`reports, this`trades, this`legs, this`dailyNet, this`trace, this`curve, this`journal, broker, safety
      ensures Ready(|candles|) && Queued(|candles|, |candles|) && trace.fired == old(trace.fired)
      ensures Concluded(s, Here(), candles[|candles| - 1], left)
      ensures |curve| == |candles| && curve[..|candles| - 1] == old(curve)[..|candles| - 1]
      ensures curve[|candles| - 1] == PointOf(cfg.broker, candles[|candles| - 1], broker.State())
      ensures broker.positions == if candles[|candles| - 1].close > 0.0 then map[] else old(broker.positions)
    {
      ghost var m := Here();
      ForceClose(|candles| - 1, RunEnded, |candles|, |candles|);
      ConcludedClosed(s, m, Here(), candles[|candles| - 1], left);
      ReplaceLastPoint(s, left);
    }

    /** What the lists come to when nothing is open. */
    lemma {:induction false} FlatLists(turn: nat)
      requires Ready(turn)
      ensures broker.positions == map[] ==>
        && Equity(cfg.broker, broker.State()) == cfg.broker.startingEquity + NetSum(trades) - broker.fundingPaid
        && Equity(cfg.broker, broker.State()) == cfg.broker.startingEquity + Sum(dailyNet)
    {
      StandsNow(cfg.broker, journal, trace.log, broker.State(), Ledgers(), fundedOn, turn, 0);
      if broker.positions == map[] {
        FlatBooks(cfg.broker, trades, legs, dailyNet, broker.State());
      }
    }

    /** After the loop: the leftovers are rejected, and whatever is still open is closed at the last close. */
    method Finish()
      requires Ready(|candles|) && candles != [] && Queued(|candles|, |candles|) && |curve| == |candles|
      requires curve[|candles| - 1].equity == Equity(cfg.broker, broker.State())
      modifies this`reports, this`trades, this`legs, this`dailyNet, this`pending, this`trace, this`ids, this`curve,
               this`journal, broker, safety
      ensures Ready(|candles|) && Queued(|candles|, |candles|) && pending == [] && trace.fired == old(trace.fired)
      ensures Concluded(old(Here()), Here(), candles[|candles| - 1], old(pending))
      ensures |curve| == |candles| && curve[..|candles| - 1] == old(curve)[..|candles| - 1]
      ensures old(broker.positions) == map[] ==> curve == old(curve)
      ensures broker.positions == map[] <==> candles[|candles| - 1].close > 0.0 || old(broker.positions) == map[]
      ensures broker.positions == map[] ==> curve[|candles| - 1].equity == cfg.broker.startingEquity + Sum(dailyNet)
    {
      ghost var s, left := Here(), pending;
      FlatLists(|candles|);
      RejectLeftovers();
      ConcludedFirst(s, Here(), candles[|candles| - 1], left);
      if broker.positions != map[] {
        CloseAtEnd(s, left);
        FlatLists(|candles|);
      }
    }

    /**
     * A completed run: nothing is pending, every candle has its page and its equity point, and
     * the broker's reports are all filed.
     */
    ghost predicate Finished()
      reads this, broker, safety
    {
      && Ready(|candles|) && Queued(|candles|, |candles|) && pending == []
      && Complete(Sc(), Here(), trace.fired, pages, curve)
    }

    /** The final snapshot: on a flat account it is what both lists come to. */
    method FinalEquity(ghost s: Story, ghost left: seq<Pending>) returns (equity: real)
      requires Ready(|candles|) && candles != [] && Concluded(s, Here(), candles[|candles| - 1], left)
      modifies this`journal, broker
      ensures Ready(|candles|) && Concluded(s, Here(), candles[|candles| - 1], left)
      ensures broker.positions == old(broker.positions) && equity == Equity(cfg.broker, broker.State())
      ensures broker.positions == map[] ==>
        && equity == cfg.broker.startingEquity + NetSum(trades) - broker.fundingPaid
        && equity == cfg.broker.startingEquity + Sum(dailyNet)
    {
      ghost var t := Here();
      var snap := Snap(cfg.pair, candles[|candles| - 1].close, |candles|);
      ConcludedMarked(s, t, Here(), candles[|candles| - 1], left, map[cfg.pair := candles[|candles| - 1].close]);
      FlatLists(|candles|);
      equity := snap.equity;
    }

    /** The account the last candle left behind: what is open then is closed at the last close, if that is positive. */
    ghost predicate EndsFlat()
      requires candles != [] && |pages| == |candles|
      reads this, safety`seen
    {
      candles[|candles| - 1].close > 0.0 || AccountAfter(Sc(), Here(), pages, |candles| - 1).positions == map[]
    }

    /** Finish, and take the final snapshot. */
    method WindUp() returns (equity: real)
      requires Ready(|candles|) && candles != [] && Queued(|candles|, |candles|) && |curve| == |candles|
      requires curve[|candles| - 1].equity == Equity(cfg.broker, broker.State())
      modifies this`reports, this`trades, this`legs, this`dailyNet, this`pending, this`trace, this`ids, this`curve,
               this`journal, broker, safety
      ensures Ready(|candles|) && Queued(|candles|, |candles|) && pending == [] && trace.fired == old(trace.fired)
      ensures Concluded(old(Here()), Here(), candles[|candles| - 1], old(pending))
      ensures |curve| == |candles| && curve[..|candles| - 1] == old(curve)[..|candles| - 1]
      ensures old(broker.positions) == map[] ==> curve == old(curve)
      ensures equity == Equity(cfg.broker, broker.State())
      ensures broker.positions == map[] <==> candles[|candles| - 1].close > 0.0 || old(broker.positions) == map[]
      ensures broker.positions == map[] ==>
        && equity == cfg.broker.startingEquity + NetSum(trades) - broker.fundingPaid
        && equity == cfg.broker.startingEquity + Sum(dailyNet) && equity == curve[|candles| - 1].equity
    {
      ghost var s, left := Here(), pending;
      Finish();
      equity := FinalEquity(s, left);
    }

    lemma LastPointIsNow()
      requires Ready(|candles|) && candles != [] && Told(|candles|)
      ensures curve[|candles| - 1].equity == Equity(cfg.broker, broker.State())
      ensures Here().Now(cfg.broker) == broker.State()
    {
      StandsNow(cfg.broker, journal, trace.log, broker.State(), Ledgers(), fundedOn, |candles|, 0);
      LastPoint(Sc(), Here(), trace.fired, pages, dayStart, pending, curve);
    }

    /** What follows the loop. */
    method Conclude() returns (equity: real)
      requires Ready(|candles|) && candles != [] && Queued(|candles|, |candles|) && Told(|candles|)
      modifies this, broker, safety
      ensures Finished() && equity == Equity(cfg.broker, broker.State())
      ensures broker.positions == map[] <==> EndsFlat()
      ensures broker.positions == map[] ==>
        && equity == cfg.broker.startingEquity + NetSum(trades) - broker.fundingPaid
        && equity == cfg.broker.startingEquity + Sum(dailyNet) && equity == curve[|candles| - 1].equity
    {
      ghost var s, left, points, days := Here(), pending, curve, dayStart;
      LastPointIsNow();
      equity := WindUp();
      CompleteRun(Sc(), s, Here(), trace.fired, pages, days, left, points, curve);
    }

    /**
     * `run`. The account ends flat exactly when the last close is positive or nothing was open
     * at it, and then the final equity is the starting equity plus what the trade list and what
     * the list of days come to.
     */
    method RunCandles() returns (outcome: Outcome)
      requires Ready(0) && |inputs| == |candles| && Queued(0, 0) && Halting() && Told(0)
      modifies this, broker, safety
      ensures Sound() && (outcome.NoCandles? <==> candles == []) && (outcome.Completed? ==> Finished())
      ensures outcome.Raised? ==> cfg.dynamicExits
      ensures outcome.Completed? ==> outcome.finalEquity == Equity(cfg.broker, broker.State())
      ensures outcome.Completed? ==> (broker.positions == map[] <==> EndsFlat())
      ensures outcome.Completed? && broker.positions == map[] ==>
        && outcome.finalEquity == cfg.broker.startingEquity + NetSum(trades) - broker.fundingPaid
        && outcome.finalEquity == cfg.broker.startingEquity + Sum(dailyNet)
        && outcome.finalEquity == curve[|candles| - 1].equity
    {
      if candles == [] {
        outcome := NoCandles;
      } else {
        var raised := Loop();
        if raised {
          outcome := Raised;
        } else {
          var equity := Conclude();
          outcome := Completed(equity);
        }
      }
    }

    // ---------------------------------------------------------------- what a completed run guarantees

    /**
     * The day's loss reaches the limit at candle `i`: the rule of the kill switch, read off the accounts of the run.
     */
    ghost predicate LostAt(i: nat)
      requires i < |pages| <= |candles|
      reads this`journal, this`trace, this`pages, safety`seen
    {
      Lost(Sc(), Here(), pages, i)
    }

    /** The kill switch fires on exactly the candles at which the day's loss reaches the limit. */
    lemma KillSwitchFires(i: nat)
      requires Finished() && i < |candles|
      ensures i in trace.fired <==> LostAt(i)
    {
      FiredIffLost(Sc(), Here(), trace.fired, pages, i);
    }

    /**
     * The override is never on in a run, so the limit alone decides; without an allowance every candle shuts its day.
     */
    lemma LimitDecides(i: nat)
      requires Finished() && i < |candles|
      ensures pages[i].settled.calls < |journal|
      ensures LostAt(i) <==>
        var a := AccountAt(cfg.broker, journal, pages[i].settled.calls + 1);
        Max(0.0, BaseOf(Sc(), Here(), pages, i) - TradableEquity(cfg.broker, a)) >=
          PercentOf(cfg.broker.startingEquity, cfg.maxDailyLossPct)
      ensures cfg.maxDailyLossPct <= 0.0 ==> LostAt(i)
    {
      LimitIsPercent(cfg);
      FiredIffLost(Sc(), Here(), trace.fired, pages, i);
      OverrideIsOff(pages[i].settled.calls + 1);
    }

    lemma OverrideIsOff(x: nat)
      requires Sound() && x <= |journal|
      ensures !AccountAt(cfg.broker, journal, x).overrideEnabled
    {
      assert Accounted(cfg.broker, journal, broker.State(), Ledgers(), fundedOn);
      LivedIsRun(cfg.broker, journal, broker.State(), x);
      OverrideStaysOff(cfg.broker, Events(journal, x));
    }

    /**
     * Kill-switch safety, for every strategy and risk manager: once a day has lost its limit, no later candle of it
     * sees an entry.
     */
    lemma NoEntryAfterKillSwitch(i: nat, j: nat, k: nat)
      requires Finished() && Separate(candles) && k < |reports|
      requires i < j < |candles| && LostAt(i) && Day(candles[j].closeTime) == Day(candles[i].closeTime)
      ensures !(EntersPosition(reports[k]) && reports[k].order.value.timestamp == candles[j].openTime)
    {
      KillSwitchFires(i);
      assert QueueOk(candles, |candles|, |candles|, trace, ids, pending, reports);
      assert LogsAt(candles, trace, reports, k);
      if EntersPosition(reports[k]) {
        KillSwitchBlocksEntries(candles, |candles|, trace, i, j, k);
      }
    }

    /**
     * Every accepted entry executes a deferred decision at a later candle's open, after the
     * candles before that one have been closed and before it is closed itself; it is filled at
     * that open, moved against the trader by the slippage.
     */
    lemma EntryAtOpen(k: nat) returns (id: nat, j: nat)
      requires Finished() && k < |reports| && EntersPosition(reports[k])
      ensures |reports| == |trace.log| && trace.log[k].report == reports[k] && j == trace.log[k].candle < |candles|
      ensures id < |trace.deferred| && DeferralOk(candles, trace, id) && trace.log[k].deferral == Some(id)
        && FilledAtNextOpen(candles, trace.deferred[id], trace.log[k])
      ensures reports[k].order.value.timestamp == candles[j].openTime
      ensures var e := trace.log[k];
        && e.index < |journal| && journal[e.index] == e.call && e.call.report == Some(reports[k]) && e.call.turn == j
        && e.call.event == Decided(trace.deferred[id].decision, Some(candles[j].open), candles[j].openTime)
      ensures var o, f := reports[k].order.value, reports[k].fill;
        && f.Some? && f.value.side == (if o.action.EnterLong? then Buy else Sell)
        && (candles[j].open != 0.0 ==>
              f.value.price == FillRules.Moved(candles[j].open, f.value.side, cfg.broker.slippagePct))
    {
      assert QueueOk(candles, |candles|, |candles|, trace, ids, pending, reports);
      assert LogsAt(candles, trace, reports, k);
      id := EntryWasDeferred(candles, |candles|, trace, k);
      StandsBacked(cfg.broker, journal, trace.log, broker.State(), Ledgers(), fundedOn, |candles|, k);
      j := trace.log[k].candle;
      assert Accounted(cfg.broker, journal, broker.State(), Ledgers(), fundedOn);
      assert LinkedAt(cfg.broker, journal, trace.log[k].index);
      NoBooks(cfg.broker, journal, broker.State(), trace.log[k].index);
      EntryFilledAt(cfg.broker, trace.log[k].call, trace.deferred[id].decision, candles[j].open, candles[j].openTime);
    }

    /**
     * A deferred decision that the broker accepts is filled at the open of its candle, moved against the trader by the
     * slippage: whatever price the signal names, unless that open is zero and so counts as no price.
     */
    lemma FilledAtOpen(id: nat)
      requires Finished() && id < |trace.deferred| && id in trace.fate && trace.fate[id] < |reports|
      requires reports[trace.fate[id]].accepted
      ensures |reports| == |trace.log|
      ensures var d, e, r := trace.deferred[id].decision, trace.log[trace.fate[id]], reports[trace.fate[id]];
        && e.candle < |candles| && r.fill.Some? && FilledAt(cfg.broker, d, candles[e.candle].open, r.fill.value)
        && (candles[e.candle].open != 0.0 ==>
              r.fill.value.price == FillRules.Moved(candles[e.candle].open, r.fill.value.side,
                                                    if d.signal.action.IsEntry() then cfg.broker.slippagePct
                                                    else FillRules.SlippageFor(cfg.broker, d.signal)))
    {
      DeferredAnsweredOnce(id);
      assert Accounted(cfg.broker, journal, broker.State(), Ledgers(), fundedOn);
      var d, e := trace.deferred[id], trace.log[trace.fate[id]];
      assert LinkedAt(cfg.broker, journal, e.index);
      NoBooks(cfg.broker, journal, broker.State(), e.index);
      CallFilledAt(cfg.broker, e.call, d.decision, candles[e.candle].open, candles[e.candle].openTime);
    }

    /** From where the kill switch has fired to where the last candle of that day is done, no broker call enters. */
    lemma NoEntryCall(i: nat, k: nat, x: nat)
      requires Finished() && Separate(candles) && i <= k < |candles| && x < |journal|
      requires LostAt(i) && Day(candles[i].closeTime) == Day(candles[k].closeTime)
      requires pages[i].switched.calls <= x < pages[k].closed.calls
      ensures journal[x].report.Some? ==> !EntersPosition(journal[x].report.value)
    {
      if journal[x].report.Some? && EntersPosition(journal[x].report.value) {
        KillSwitchFires(i);
        AllReported(x);
        var id, j := EntryAtOpen(journal[x].rank);
        TurnBetween(i, k, x);
        FillIsNext(candles, trace.deferred[id], j);
        SameDayBetween(candles, i, trace.deferred[id].candle, k);
        assert false;
      }
    }

    lemma TurnBetween(i: nat, k: nat, x: nat)
      requires Finished() && i <= k < |candles| && x < |journal| && i in trace.fired
      requires pages[i].switched.calls <= x < pages[k].closed.calls
      ensures i + 1 <= journal[x].turn <= k + 1
    {
      assert Accounted(cfg.broker, journal, broker.State(), Ledgers(), fundedOn);
      SwitchLeaves(Sc(), Here(), trace.fired, pages, i);
      TurnOnPage(Sc(), Here(), trace.fired, pages, i, broker.State());
      TurnOnPage(Sc(), Here(), trace.fired, pages, k + 1, broker.State());
      TurnsRise(cfg.broker, journal, broker.State(), pages[i].settled.calls, x);
      TurnsRise(cfg.broker, journal, broker.State(), x, pages[k].closed.calls);
      assert LinkedAt(cfg.broker, journal, x);
    }

    /** A kill switch that fires leaves the account flat if and only if the close is positive or nothing was open. */
    lemma FlatAtFiring(i: nat)
      requires Finished() && i < |candles| && LostAt(i)
      ensures pages[i].settled.calls <= pages[i].switched.calls <= |journal|
      ensures AccountAt(cfg.broker, journal, pages[i].switched.calls).positions == map[] <==>
        candles[i].close > 0.0 || AccountAt(cfg.broker, journal, pages[i].settled.calls).positions == map[]
    {
      KillSwitchFires(i);
      SwitchLeaves(Sc(), Here(), trace.fired, pages, i);
    }

    /** Flat where the kill switch has fired, flat for the rest of the day, in the account and in the equity points. */
    lemma FlatAfterKillSwitch(i: nat, k: nat)
      requires Finished() && Separate(candles) && i <= k < |candles| && pages[i].settled.calls <= |journal|
      requires LostAt(i) && Day(candles[i].closeTime) == Day(candles[k].closeTime)
      requires candles[i].close > 0.0 || AccountAt(cfg.broker, journal, pages[i].settled.calls).positions == map[]
      ensures curve[k].openPositions == 0 && AccountAfter(Sc(), Here(), pages, k).positions == map[]
    {
      KillSwitchFires(i);
      FlatAtFiring(i);
      SwitchLeaves(Sc(), Here(), trace.fired, pages, i);
      PageOrdered(Sc(), Here(), trace.fired, pages, k);
      assert Accounted(cfg.broker, journal, broker.State(), Ledgers(), fundedOn);
      var x, y := pages[i].switched.calls, pages[k].closed.calls;
      SwitchedBefore(Sc(), Here(), trace.fired, pages, i, k);
      forall z | x <= z < y && journal[z].report.Some? ensures !EntersPosition(journal[z].report.value) {
        NoEntryCall(i, k, z);
      }
      FlatStretch(cfg.broker, journal, broker.State(), x, y);
      PointAfter(k);
    }

    lemma PointAfter(k: nat)
      requires Finished() && k < |candles| && AccountAfter(Sc(), Here(), pages, k).positions == map[]
      ensures curve[k].openPositions == 0
    {
      if k < |candles| - 1 {
        var shown := curve[..|candles| - 1];
        assert PlottedAt(Sc(), Here(), pages, shown, k) && shown[k] == curve[k];
      }
    }

    /**
     * Exactly once: one report answers each deferred decision. It is the broker's report of
     * executing that decision at the open of the first candle that opens later, while that
     * candle is being opened, or of refusing it when there is none.
     */
    lemma DeferredAnsweredOnce(id: nat)
      requires Finished() && id < |trace.deferred|
      ensures id in trace.fate && trace.fate[id] < |reports| == |trace.log|
      ensures forall k :: 0 <= k < |trace.log| ==> (trace.log[k].deferral == Some(id) <==> k == trace.fate[id])
      ensures var d, e := trace.deferred[id], trace.log[trace.fate[id]];
        && e.report == reports[trace.fate[id]] && (FilledAtNextOpen(candles, d, e) || RejectedAtEnd(candles, d, e))
        && e.index < |journal| && journal[e.index] == e.call && e.call.report == Some(e.report)
        && Genuine(cfg.broker, e.call)
    {
      assert QueueOk(candles, |candles|, |candles|, trace, ids, pending, reports);
      EachDeferralAnsweredOnce(candles, |candles|, trace, ids, id);
      assert LogsAt(candles, trace, reports, trace.fate[id]);
      StandsBacked(cfg.broker, journal, trace.log, broker.State(), Ledgers(), fundedOn, |candles|, trace.fate[id]);
    }

    /** Nothing the broker reported is missing from the reports, and nothing is there twice. */
    lemma AllReported(x: nat)
      requires Finished() && x < |journal| && journal[x].report.Some?
      ensures journal[x].rank < |reports| == |trace.log| && reports[journal[x].rank] == journal[x].report.value
      ensures forall k: nat :: k < |reports| ==> (trace.log[k].index == x <==> k == journal[x].rank)
    {
      assert Accounted(cfg.broker, journal, broker.State(), Ledgers(), fundedOn);
      ReportsAreLogged(cfg.broker, journal, broker.State(), trace.log, x);
      assert QueueOk(candles, |candles|, |candles|, trace, ids, pending, reports);
      assert LogsAt(candles, trace, reports, journal[x].rank);
    }

    /**
     * None is lost: a decision given on candle `n` is put off exactly once, if the day trades
     * and the guard lets it pass, and else never.
     */
    lemma DecisionsPutOffOnce(n: nat, k: nat, id: nat)
      requires Finished() && n < |candles| && k < |inputs[n].decisions| && id < |trace.deferred|
      ensures trace.deferred[id].candle == n && trace.deferred[id].slot == k <==>
        !HaltedAt(candles, trace.fired, n) && Defers(GivenOn(Sc(), Here(), pages, n)[k])
          && id == PutAt(Sc(), Here(), pages, n, k)
    {
      var last := |pages| - 1;
      StoryEnds(Sc(), Here(), trace.fired, pages, curve);
      var m := PageOfPut(Sc(), Here(), trace.fired, pages, |pages|, id);
      PutsOnPage(Sc(), Here(), trace.fired, pages, m, id);
      if !HaltedAt(candles, trace.fired, n) {
        DecisionPutOff(Sc(), Here(), trace.fired, pages, n, k, id);
        if m != n && Defers(GivenOn(Sc(), Here(), pages, n)[k]) && id == PutAt(Sc(), Here(), pages, n, k) {
          PutsOnPage(Sc(), Here(), trace.fired, pages, n, id);
        }
      }
    }

    /**
     * What lets a decision pass, read off the whole run: it is approved and trades, no window that candles and trades
     * opened before it is still open, and the last profit does not hold it back.
     */
    lemma PassesExactly(n: nat, k: nat)
      requires Finished() && n < |candles| && k < |inputs[n].decisions|
      ensures pages[n].switched.seen <= |safety.seen|
      ensures var d, c, u := inputs[n].decisions[k], candles[n], GuardOf(cfg);
        var seen := safety.seen[..pages[n].switched.seen] + Tries(c, inputs[n], k);
        Defers(GivenOn(Sc(), Here(), pages, n)[k]) <==>
          && d.approved && d.signal.action != Hold
          && !(d.signal.action.IsEntry() && (c.closeTime < 0 || GuardRules.Paused(u, seen, c.closeTime)))
          && !GuardRules.HeldBack(u, seen, d, c, inputs[n].atr)
    {
      var d, c, u := inputs[n].decisions[k], candles[n], GuardOf(cfg);
      PageOrdered(Sc(), Here(), trace.fired, pages, n);
      var seen := safety.seen[..pages[n].switched.seen];
      VerdictAt(u, seen, c, inputs[n], |inputs[n].decisions|, k);
      GuardRules.BlockedExactly(u, seen + Tries(c, inputs[n], k), d, c, inputs[n].atr);
    }

    /** It is put off as the guard let it pass, at the close of its candle. */
    lemma DecisionPut(n: nat, k: nat)
      requires Finished() && n < |candles| && k < |inputs[n].decisions|
      requires !HaltedAt(candles, trace.fired, n) && Defers(GivenOn(Sc(), Here(), pages, n)[k])
      ensures var id := PutAt(Sc(), Here(), pages, n, k);
        && id < |trace.deferred|
        && trace.deferred[id] == Deferral(inputs[n].decisions[k], candles[n].closeTime, n, k)
    {
      DecisionPutOff(Sc(), Here(), trace.fired, pages, n, k, PutAt(Sc(), Here(), pages, n, k));
      PassedUnchanged(Sc(), Here(), pages, n, k);
    }

    /**
     * Any other decision of a day that trades has one report, in its place among the candle's calls, and it is a
     * refusal.
     */
    lemma DecisionRefused(n: nat, k: nat)
      requires Finished() && n < |candles| && k < |inputs[n].decisions|
      requires !HaltedAt(candles, trace.fired, n) && !Defers(GivenOn(Sc(), Here(), pages, n)[k])
      ensures var x := RefusalAt(Sc(), Here(), pages, n, k);
        && x < |journal| && journal[x].report.Some? && !journal[x].report.value.accepted
        && journal[x].event == Decided(GivenOn(Sc(), Here(), pages, n)[k], Some(candles[n].close), candles[n].closeTime)
    {
      DecisionTurnedDown(Sc(), Here(), trace.fired, pages, n, k);
      assert Accounted(cfg.broker, journal, broker.State(), Ledgers(), fundedOn);
      RefusedCall(cfg.broker, journal, broker.State(), RefusalAt(Sc(), Here(), pages, n, k));
    }

    /** Decisions are put off and refused in the order they are given, and nothing else is on that candle. */
    lemma DecisionsInOrder(n: nat, k: nat, m: nat)
      requires Finished() && n < |candles| && k < m <= |inputs[n].decisions| && !HaltedAt(candles, trace.fired, n)
      ensures if Defers(GivenOn(Sc(), Here(), pages, n)[k]) then
          PutAt(Sc(), Here(), pages, n, k) < PutAt(Sc(), Here(), pages, n, m)
        else RefusalAt(Sc(), Here(), pages, n, k) < RefusalAt(Sc(), Here(), pages, n, m)
      ensures PutAt(Sc(), Here(), pages, n, |inputs[n].decisions|) == pages[n].closed.deferred
      ensures RefusalAt(Sc(), Here(), pages, n, |inputs[n].decisions|) + 1 == pages[n].closed.calls
    {
      DecisionsOnPage(Sc(), Here(), trace.fired, pages, n, k, m);
    }

    /** The run is a run of the broker, so whatever holds of those holds of it. */
    lemma RunIsBrokerRun()
      requires Sound()
      ensures broker.State() == Run(cfg.broker, Events(journal, |journal|))
    {
      assert Accounted(cfg.broker, journal, broker.State(), Ledgers(), fundedOn);
      LivedIsRun(cfg.broker, journal, broker.State(), |journal|);
    }

    /** With the profit lock at 100% the two ledgers conserve value through the whole backtest. */
    lemma LedgersConserved()
      requires Sound() && cfg.broker.profitLockEnabled && cfg.broker.autoLockPct == 100.0
      ensures Conserved(cfg.broker, broker.State())
      ensures broker.positions == map[] ==>
        TradableEquity(cfg.broker, broker.State()) == broker.tradableBase - broker.fundingPaid
    {
      RunIsBrokerRun();
      RunConserved(cfg.broker, Events(journal, |journal|));
    }

    /** Every deferred decision the broker accepted as an entry bought for a long or sold for a short. */
    ghost predicate EntriesAligned()
      reads this`trace, this`reports
    {
      forall id :: 0 <= id < |trace.deferred| && id in trace.fate && trace.fate[id] < |reports| ==>
        EntersPosition(reports[trace.fate[id]]) ==> Aligned(trace.deferred[id].decision)
    }

    /**
     * The exact condition for a backtest: its ledger is the replay of its fills after every broker call if and only
     * if every deferred decision the broker accepted as an entry was aligned.
     */
    lemma ReplayedExactly()
      requires Finished()
      ensures AlwaysReconciled(cfg.broker, Events(journal, |journal|)) <==> EntriesAligned()
    {
      assert Accounted(cfg.broker, journal, broker.State(), Ledgers(), fundedOn);
      AlwaysReconciledExactly(cfg.broker, Events(journal, |journal|));
      JournalAligned(cfg.broker, journal, broker.State(), |journal|);
      if forall z :: 0 <= z < |journal| ==> CallAligned(journal[z]) {
        CallsAlignEntries();
      }
      if EntriesAligned() {
        EntriesAlignCalls();
      }
    }

    lemma CallsAlignEntries()
      requires Finished() && forall z :: 0 <= z < |journal| ==> CallAligned(journal[z])
      ensures EntriesAligned()
    {
      forall id | 0 <= id < |trace.deferred| && id in trace.fate && trace.fate[id] < |reports|
          && EntersPosition(reports[trace.fate[id]])
        ensures Aligned(trace.deferred[id].decision)
      {
        DeferredAnsweredOnce(id);
        assert CallAligned(journal[trace.log[trace.fate[id]].index]);
      }
    }

    lemma EntriesAlignCalls()
      requires Finished() && EntriesAligned()
      ensures forall z :: 0 <= z < |journal| ==> CallAligned(journal[z])
    {
      forall z | 0 <= z < |journal| ensures CallAligned(journal[z]) {
        if journal[z].report.Some? && EntersPosition(journal[z].report.value) {
          AllReported(z);
          var id, j := EntryAtOpen(journal[z].rank);
          DeferredAnsweredOnce(id);
        }
      }
    }

    /**
     * Then the final equity, the open positions and every holding follow from the fills, the last prices and the
     * funding alone.
     */
    lemma EquityIsReplayed()
      requires Finished() && EntriesAligned()
      ensures Equity(cfg.broker, broker.State())
        == ReplayedEquity(cfg.broker, broker.fills, broker.marks, broker.fundingPaid)
      ensures broker.positions.Keys == OpenPairs(broker.fills)
      ensures forall pair :: Inventory(broker.fills, pair) == Held(broker.positions, pair)
    {
      ReplayedExactly();
      AlwaysReconciledExactly(cfg.broker, Events(journal, |journal|));
      RunIsBrokerRun();
      EquityIsReplay(cfg.broker, Events(journal, |journal|));
    }

    /** And the funding paid is, candle by candle on the boundaries, the rate on what the fills have left open. */
    lemma FundingIsInventoryWorth()
      requires Finished() && EntriesAligned()
      ensures broker.fundingPaid == DueOver(Sc(), Here(), pages, |candles|)
    {
      assert Accounted(cfg.broker, journal, broker.State(), Ledgers(), fundedOn);
      ReplayedExactly();
      AlwaysReconciledExactly(cfg.broker, Events(journal, |journal|));
      RunIsBrokerRun();
      FundingIsReplayed(cfg.broker, Events(journal, |journal|));
      FundingInRun(cfg.broker, journal, broker.State(), |journal|);
      CompleteFunds(Sc(), Here(), trace.fired, pages, curve, broker.State());
    }

    /** So it is whenever no strategy contradicts itself. */
    lemma GivenAligned()
      requires Finished()
      requires forall n, k :: 0 <= n < |candles| && 0 <= k < |inputs[n].decisions| ==> Aligned(inputs[n].decisions[k])
      ensures EntriesAligned()
    {
      StoryEnds(Sc(), Here(), trace.fired, pages, curve);
      forall id | 0 <= id < |trace.deferred| ensures Aligned(trace.deferred[id].decision) {
        PutIsGiven(Sc(), Here(), trace.fired, pages, |pages|, id);
      }
    }

    /**
     * The calls a candle makes of itself, at its own prices: its day's base is read at the first open of the day, its
     * exits are made, funding is paid at its close, the guard sees the equity at its close, the account is valued there
     * before the loss rule and after everything else, and unless the day is halted the stops are updated in between.
     */
    lemma CandleCalls(n: nat)
      requires Finished() && n < |candles|
      ensures var p, c := pages[n], candles[n];
        && p.start.calls <= p.filled.calls < p.settled.calls < p.switched.calls < p.closed.calls <= |journal|
        && (!BegunBefore(candles, n) ==>
              p.start.calls < p.filled.calls && journal[p.start.calls].event == Marked(map[cfg.pair := c.open]))
        && journal[p.filled.calls].event == CandleClosed(c)
        && p.settled.calls == p.filled.calls + (if FundsAt(cfg, c) then 3 else 2)
        && (FundsAt(cfg, c) ==>
              journal[p.filled.calls + 1].event == LedgerRuns.FundingPaid(map[c.pair := c.close], cfg.fundingRate))
        && journal[p.settled.calls - 1].event == Marked(map[cfg.pair := c.close])
        && 0 < p.settled.seen <= |safety.seen|
        && safety.seen[p.settled.seen - 1] ==
           SawCandle(c, Equity(cfg.broker, AccountAt(cfg.broker, journal, p.settled.calls)))
        && journal[p.settled.calls].event == Marked(map[c.pair := c.close])
        && journal[p.closed.calls - 1].event == Marked(map[c.pair := c.close])
        && (cfg.dynamicExits && !HaltedAt(candles, trace.fired, n) ==>
              journal[p.switched.calls].event == ExitsManaged(c, inputs[n].atr, cfg.exits, inputs[n].band))
    {
      CallsOnPage(Sc(), Here(), trace.fired, pages, n);
    }

    /** And its equity point shows the account at its close. */
    lemma CurveTells(n: nat)
      requires Finished() && n < |candles|
        && (n < |candles| - 1 || AccountAfter(Sc(), Here(), pages, n).positions == map[])
      ensures pages[n].closed.calls <= |journal|
      ensures var a := AccountAt(cfg.broker, journal, pages[n].closed.calls);
        curve[n] == EquityPoint(candles[n].closeTime, candles[n].close, Equity(cfg.broker, a), |a.positions|)
    {
      if n < |candles| - 1 {
        var shown := curve[..|candles| - 1];
        assert PlottedAt(Sc(), Here(), pages, shown, n) && shown[n] == curve[n];
      }
    }

    /** The candle closes, funding payments and stop updates of a completed run are those of its candles, in order. */
    lemma OnSchedule()
      requires Finished()
      ensures Timeline(Events(journal, |journal|)) == Schedule(cfg, candles, inputs, trace.fired, |candles|)
    {
      CompleteOnSchedule(Sc(), Here(), trace.fired, pages, curve);
    }

    /**
     * On adjacent candles no funding boundary is paid twice, and none is missed exactly when no candle straddles one.
     */
    lemma FundingPaidOncePerBoundary()
      requires Finished() && Adjacent(candles) && cfg.fundingRate != 0.0 && cfg.fundingHours > 0
      ensures var calls := FundingCalls(Events(journal, |journal|));
        && calls <= Covered(candles, cfg.fundingHours)
        && (calls == Covered(candles, cfg.fundingHours) <==>
              forall i :: 0 <= i < |candles| ==> InOnePeriod(candles[i], cfg.fundingHours))
    {
      OnSchedule();
      FundingIsScheduled(Events(journal, |journal|));
      RunFundsEachBoundaryOnce(cfg, candles, inputs, trace.fired);
    }
  }

  lemma LimitIsPercent(cfg: BacktestConfig)
    requires cfg.broker.startingEquity > 0.0
    ensures cfg.LossLimit() == PercentOf(cfg.broker.startingEquity, cfg.maxDailyLossPct)
    ensures cfg.maxDailyLossPct <= 0.0 ==> cfg.LossLimit() <= 0.0
  {
    if cfg.maxDailyLossPct <= 0.0 { TimesOrder(cfg.broker.startingEquity, cfg.maxDailyLossPct / 100.0, 0.0); }
  }

  lemma SortedCandles(raw: seq<Candle>)
    ensures var candles := Sorting.Sort(raw, ByOpen());
      && |candles| == |raw| && Sorting.SortedBy(candles, ByOpen())
      && forall k :: Sorting.WithKey(candles, k, ByOpen()) == Sorting.WithKey(raw, k, ByOpen())
  {
    Sorting.SortEntries(raw, ByOpen());
    Sorting.SortSorts(raw, ByOpen());
    forall k ensures Sorting.WithKey(Sorting.Sort(raw, ByOpen()), k, ByOpen()) == Sorting.WithKey(raw, k, ByOpen()) {
      Sorting.SortStable(raw, k, ByOpen());
    }
  }

  /** Building an engine and running it: every configuration the broker accepts, and any candles in any order. */
  method RunBacktest(cfg: BacktestConfig, raw: seq<Candle>,
                     inputs: seq<CandleInputs>) returns (e: Engine, outcome: Outcome)
    requires cfg.broker.Valid() && |inputs| == |raw|
    ensures e.cfg == cfg && e.inputs == inputs && |e.candles| == |raw| && Sorting.SortedBy(e.candles, ByOpen())
    ensures forall k :: Sorting.WithKey(e.candles, k, ByOpen()) == Sorting.WithKey(raw, k, ByOpen())
    ensures e.Sound() && (outcome.NoCandles? <==> raw == []) && (outcome.Completed? ==> e.Finished())
    ensures outcome.Raised? ==> cfg.dynamicExits
    ensures outcome.Completed? ==> outcome.finalEquity == Equity(cfg.broker, e.broker.State())
    ensures outcome.Completed? ==> (e.broker.positions == map[] <==> e.EndsFlat())
    ensures outcome.Completed? && e.broker.positions == map[] ==>
      && outcome.finalEquity == cfg.broker.startingEquity + NetSum(e.trades) - e.broker.fundingPaid
      && outcome.finalEquity == cfg.broker.startingEquity + Sum(e.dailyNet)
  {
    e := new Engine(cfg, raw, inputs);
    outcome := e.RunCandles();
  }

  lemma RejectOne(candles: seq<Candle>, t: Trace, front: seq<nat>, id: nat, rest: seq<nat>, kept: seq<Pending>,
                  left: seq<Pending>, reports: seq<Report>, r: Report, index: nat, call: Call)
    requires candles != [] && left != [] && |front| == |kept| && !r.accepted
    requires call.turn == |candles| && call.event == LeftoverOf(candles[|candles| - 1], left[0])
    requires QueueOk(candles, |candles|, |candles|, t, front + [id] + rest, kept + left, reports)
    ensures QueueOk(candles, |candles|, |candles|, Answered(t, id, r, |candles| - 1, index, call), front + rest,
                    kept + left[1..], reports + [r])
  {
    var ids := front + [id] + rest;
    assert ids[|front|] == id && id in ids && (kept + left)[|front|] == left[0];
    assert Waits(candles, t, id, |candles|) && MirrorsAt(t, ids, kept + left, |front|);
    QueueAnswered(candles, |candles|, |candles|, t, front, id, rest, kept, left, reports, r, |candles| - 1, index,
                  call);
  }

  lemma NothingBefore<T>(s: seq<T>)
    ensures [] + s == s
  {
  }

  lemma FirstOff<T>(all: seq<T>, k: nat)
    requires k < |all|
    ensures all[k..] == [all[k]] + all[k + 1..] && all[k..][1..] == all[k + 1..]
  {
  }

  lemma KeepsWaiting<T>(front: seq<T>, all: seq<T>, k: nat)
    requires k < |all|
    ensures front + all[k..] == front + [all[k]] + all[k + 1..]
  {
  }

  lemma FillOne(candles: seq<Candle>, n: nat, t: Trace, front: seq<nat>, id: nat, rest: seq<nat>, kept: seq<Pending>,
                left: seq<Pending>, reports: seq<Report>, r: Report, index: nat, call: Call)
    requires n < |candles| && left != [] && |front| == |kept|
    requires QueueOk(candles, n, n, t, front + [id] + rest, kept + left, reports)
    requires Due(candles[n], left[0]) && OrderedAt(r, candles[n].openTime)
    requires call.turn == n && call.event == FillOf(candles[n], left[0])
    ensures QueueOk(candles, n, n, Answered(t, id, r, n, index, call), front + rest, kept + left[1..], reports + [r])
  {
    var ids := front + [id] + rest;
    assert ids[|front|] == id && id in ids && (kept + left)[|front|] == left[0];
    assert Waits(candles, t, id, n) && MirrorsAt(t, ids, kept + left, |front|) && MadeBefore(t, id, n);
    QueueAnswered(candles, n, n, t, front, id, rest, kept, left, reports, r, n, index, call);
  }
}
