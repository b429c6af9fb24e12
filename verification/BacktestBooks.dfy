/** Recording reports in the engine's own books, and the broker calls a run makes. */
module BacktestBooks {
  import opened Common
  import opened Market
  import opened Sums
  import opened Ledger
  import opened LedgerMoves
  import opened LedgerRuns
  import opened SafetyGuard
  import opened BacktestTrace
  import StopManagement
  import TrailPolicies

  /** The run's configuration, with the one risk setting the loop itself reads. */
  datatype BacktestConfig = BacktestConfig(
    broker: BrokerConfig, pair: string, safety: SafetyConfig, intervalMs: int,
    fundingRate: real, fundingHours: int, maxDailyLossPct: real, dynamicExits: bool, exits: StopManagement.ExitSettings)
  {
    /** `daily_loss_limit_amount` of the starting equity. */
    function LossLimit(): real { broker.startingEquity * (maxDailyLossPct / 100.0) }
  }

  /**
   * What one candle's indicators, strategies, risk manager and entry filter come up with.
   * Runs are considered for every sequence of these, so for every strategy and risk manager.
   */
  datatype CandleInputs = CandleInputs(atr: Option<real>, band: Option<TrailPolicies.Band>, decisions: seq<Decision>)

  datatype EquityPoint = EquityPoint(timestamp: int, close: real, equity: real, openPositions: nat)

  /** The trade list, the entry fees not yet charged to a trade, and the net result of each day. */
  datatype Books = Books(trades: seq<Trade>, legs: map<string, real>, daily: map<int, real>)

  // ------------------------------------------------------------------ recording

  /** The trade an exit report stands for, charged with the entry fees recorded so far. */
  function TradeOf(r: Report, entryFees: real): Trade
    requires r.order.Some? && r.fill.Some? && r.position.Some?
  {
    var f, p := r.fill.value, r.position.value;
    Trade(r.order.value.pair, p.direction, f.quantity, p.entryPrice, f.price, p.openedAt, f.timestamp, f.realizedPnl,
          entryFees + f.fee, f.realizedPnl - (entryFees + f.fee), r.reason)
  }

  function DailyWith(daily: map<int, real>, f: Fill): map<int, real>
  {
    AddTo(daily, Day(f.timestamp), f.realizedPnl - f.fee)
  }

  lemma DaysRecorded(daily: map<int, real>, fundedOn: map<int, real>, fills: seq<Fill>, f: Fill)
    requires DaysAgree(daily, fundedOn, fills)
    ensures DaysAgree(DailyWith(daily, f), fundedOn, fills + [f])
  {
    SumAddTo(daily, Day(f.timestamp), f.realizedPnl - f.fee);
    forall day ensures DayAgrees(DailyWith(daily, f), fundedOn, fills + [f], day) {
      assert DayAgrees(daily, fundedOn, fills, day);
      DayResultSnoc(fills, f, day);
    }
  }

  /** The engine's books after recording a report (`_record_report`). */
  function Booked(b: Books, r: Report): Books
  {
    if !r.accepted || r.order.None? || r.fill.None? then b
    else
      var pair, daily := r.order.value.pair, DailyWith(b.daily, r.fill.value);
      if r.order.value.action.IsEntry() then Books(b.trades, AddTo(b.legs, pair, r.fill.value.fee), daily)
      else if r.order.value.action.IsExit() && r.position.Some? then
        Books(b.trades + [TradeOf(r, At(b.legs, pair))], b.legs - {pair}, daily)
      else b.(daily := daily)
  }

  /** The books agree with the account, day by day, and every trade is what its prices say. */
  ghost predicate BooksOk(cfg: BrokerConfig, b: Books, fundedOn: map<int, real>, a: Account)
  {
    && BooksAgree(b.trades, b.legs, b.daily, a) && DaysAgree(b.daily, fundedOn, a.fills)
    && forall t :: t in b.trades ==> Honest(cfg, t)
  }

  lemma EntryBooked(cfg: BrokerConfig, a: Account, after: Account, order: Order, f: Fill, p: Position, b: Books,
                    fundedOn: map<int, real>)
    requires BooksOk(cfg, b, fundedOn, a) && EntryMove(cfg, a, after, order, f, p)
    ensures BooksOk(cfg, Books(b.trades, AddTo(b.legs, f.pair, f.fee), DailyWith(b.daily, f)), fundedOn, after)
  {
    SumAddTo(b.legs, f.pair, f.fee);
    SumAddTo(b.daily, Day(f.timestamp), f.realizedPnl - f.fee);
    DaysRecorded(b.daily, fundedOn, a.fills, f);
  }

  lemma ExitBooked(cfg: BrokerConfig, a: Account, after: Account, order: Order, f: Fill, closed: Position,
                   kept: Option<Position>, t: Trade, b: Books, fundedOn: map<int, real>)
    requires BooksOk(cfg, b, fundedOn, a) && ExitMove(cfg, a, after, order, f, closed, kept)
    requires Honest(cfg, t) && t.netPnl == f.realizedPnl - (At(b.legs, f.pair) + f.fee)
    ensures BooksOk(cfg, Books(b.trades + [t], b.legs - {f.pair}, DailyWith(b.daily, f)), fundedOn, after)
  {
    SumDrop(b.legs, f.pair);
    SumAddTo(b.daily, Day(f.timestamp), f.realizedPnl - f.fee);
    NetSumSnoc(b.trades, t);
    DaysRecorded(b.daily, fundedOn, a.fills, f);
  }

  lemma TradeIsHonest(cfg: BrokerConfig, r: Report, entryFees: real)
    requires r.order.Some? && r.fill.Some? && r.position.Some?
    requires var f, p := r.fill.value, r.position.value;
      f.quantity == p.quantity && p.rate == cfg.rate && p.unit == cfg.unit && f.realizedPnl == p.UnrealizedPnl(f.price)
    ensures Honest(cfg, TradeOf(r, entryFees))
  {
  }

  lemma ExitTradeHonest(cfg: BrokerConfig, a: Account, after: Account, r: Report, closed: Position,
                        kept: Option<Position>, entryFees: real)
    requires Filed(cfg, a) && r.order.Some? && r.fill.Some? && r.position == Some(closed)
    requires ExitMove(cfg, a, after, r.order.value, r.fill.value, closed, kept)
    ensures Honest(cfg, TradeOf(r, entryFees))
  {
    TradeIsHonest(cfg, r, entryFees);
  }

  lemma QuietRecorded(cfg: BrokerConfig, a: Account, after: Account, r: Report, b: Books, fundedOn: map<int, real>)
    requires BooksOk(cfg, b, fundedOn, a) && QuietMove(a, after) && Reports(r, Quiet)
      && after.fundingPaid == a.fundingPaid
    ensures Booked(b, r) == b && BooksOk(cfg, b, fundedOn, after)
  {
  }

  lemma EntryRecorded(cfg: BrokerConfig, a: Account, after: Account, m: Move, r: Report, b: Books,
                      fundedOn: map<int, real>)
    requires BooksOk(cfg, b, fundedOn, a) && m.Entry? && Reports(r, m)
      && EntryMove(cfg, a, after, m.order, m.fill, m.after)
    ensures BooksOk(cfg, Booked(b, r), fundedOn, after) && Booked(b, r).trades == b.trades
  {
    EntryBooked(cfg, a, after, m.order, m.fill, m.after, b, fundedOn);
  }

  lemma ExitRecorded(cfg: BrokerConfig, a: Account, after: Account, m: Move, r: Report, b: Books,
                     fundedOn: map<int, real>)
    requires Filed(cfg, a) && BooksOk(cfg, b, fundedOn, a) && m.Exit? && Reports(r, m)
    requires ExitMove(cfg, a, after, m.order, m.fill, m.closed, m.kept)
    ensures BooksOk(cfg, Booked(b, r), fundedOn, after)
    ensures Booked(b, r).trades == b.trades + [TradeOf(r, At(b.legs, m.fill.pair))]
  {
    var t := TradeOf(r, At(b.legs, m.fill.pair));
    ExitTradeHonest(cfg, a, after, r, m.closed, m.kept, At(b.legs, m.fill.pair));
    ExitBooked(cfg, a, after, m.order, m.fill, m.closed, m.kept, t, b, fundedOn);
    BookedExit(b, r, m);
  }

  lemma BookedExit(b: Books, r: Report, m: Move)
    requires m.Exit? && Reports(r, m) && m.order.action.IsExit() && m.order.pair == m.fill.pair
    ensures Booked(b, r) ==
      Books(b.trades + [TradeOf(r, At(b.legs, m.fill.pair))], b.legs - {m.fill.pair}, DailyWith(b.daily, m.fill))
  {
  }

  /** The trade listed for an exit: what was closed, from its entry to this fill, after the fees recorded for both. */
  lemma TradeTells(b: Books, r: Report, m: Move)
    requires m.Exit? && Reports(r, m) && m.order.action.IsExit() && m.order.pair == m.fill.pair
    ensures var t, f, p := TradeOf(r, At(b.legs, m.fill.pair)), m.fill, m.closed;
      && Booked(b, r).trades == b.trades + [t] && f.pair !in Booked(b, r).legs
      && t.pair == f.pair && t.direction == p.direction && t.quantity == f.quantity && t.reason == r.reason
      && t.entryPrice == p.entryPrice && t.entryTime == p.openedAt && t.exitPrice == f.price
      && t.exitTime == f.timestamp && t.grossPnl == f.realizedPnl && t.fees == At(b.legs, f.pair) + f.fee
      && t.netPnl == t.grossPnl - t.fees
  {
    BookedExit(b, r, m);
  }

  /** Recording the report of any broker move keeps the engine's books in agreement with the account. */
  lemma BookedOk(cfg: BrokerConfig, a: Account, after: Account, m: Move, r: Report, b: Books, fundedOn: map<int, real>)
    requires Filed(cfg, a) && BooksOk(cfg, b, fundedOn, a) && !m.Manual?
    requires Moves(cfg, a, after, m) && Reports(r, m) && after.fundingPaid == a.fundingPaid
    ensures BooksOk(cfg, Booked(b, r), fundedOn, after)
    ensures Booked(b, r).trades == b.trades + (if m.Exit? then [TradeOf(r, At(b.legs, m.fill.pair))] else [])
  {
    if m.Quiet? {
      QuietRecorded(cfg, a, after, r, b, fundedOn);
    } else if m.Entry? {
      EntryRecorded(cfg, a, after, m, r, b, fundedOn);
    } else {
      ExitRecorded(cfg, a, after, m, r, b, fundedOn);
    }
  }

  /** Add a payment to a day, unless nothing was paid. */
  function Charge(m: map<int, real>, day: int, x: real): map<int, real> { if x == 0.0 then m else AddTo(m, day, x) }

  /** Funding is booked on the day it is paid. */
  lemma FundingBooked(cfg: BrokerConfig, a: Account, after: Account, paid: real, day: int, b: Books,
                      fundedOn: map<int, real>)
    requires BooksOk(cfg, b, fundedOn, a) && after == a.(fundingPaid := a.fundingPaid + paid)
    ensures BooksOk(cfg, b.(daily := Charge(b.daily, day, -paid)), Charge(fundedOn, day, paid), after)
  {
    SumAddTo(b.daily, day, -paid);
    SumAddTo(fundedOn, day, paid);
    var daily, funded := Charge(b.daily, day, -paid), Charge(fundedOn, day, paid);
    forall d ensures DayAgrees(daily, funded, a.fills, d) {
      assert DayAgrees(b.daily, fundedOn, a.fills, d);
    }
  }

  /** Refreshing marks does not touch the books. */
  lemma MarkedBooked(cfg: BrokerConfig, a: Account, marks: map<string, real>, b: Books, fundedOn: map<int, real>)
    requires Filed(cfg, a) && BooksOk(cfg, b, fundedOn, a)
    ensures Filed(cfg, a.(marks := marks)) && BooksOk(cfg, b, fundedOn, a.(marks := marks))
  {
  }

  /** Moves that fill nothing leave the books as they are. */
  lemma UnfilledBooked(cfg: BrokerConfig, a: Account, after: Account, b: Books, fundedOn: map<int, real>)
    requires BooksOk(cfg, b, fundedOn, a) && QuietMove(a, after) && after.fundingPaid == a.fundingPaid
    ensures BooksOk(cfg, b, fundedOn, after)
  {
  }

  // ------------------------------------------------------------------ decisions

  /** `_should_defer_decision`. */
  predicate Defers(d: Decision) { d.approved && (d.signal.action.IsEntry() || d.signal.action.IsExit()) }

  /** The decision the engine closes an open position with. */
  function Forced(p: Position, c: Candle, reason: Reason): Decision
  {
    Decision(true, Signal(p.strategy, p.pair, ExitAction(p.direction), Some(p.direction), Some(c.close), None, None,
                          reason, None, map[]),
             None, None, None, map[])
  }

  lemma ReportsDecision(cfg: BrokerConfig, a: Account, d: Decision, market: Option<real>, ts: int)
    requires Filed(cfg, a)
    ensures var r := Execute(cfg, a, d, market, ts).1; r.decision == Some(d) && OrderedAt(r, ts)
  {
  }

  /** Executing a decision and recording its report keeps the books; only an approved entry decision enters. */
  lemma DecidedBooked(cfg: BrokerConfig, a: Account, d: Decision, market: Option<real>, ts: int, b: Books,
                      fundedOn: map<int, real>)
    requires cfg.Valid() && Filed(cfg, a) && BooksOk(cfg, b, fundedOn, a)
    ensures var r := Execute(cfg, a, d, market, ts);
      && BooksOk(cfg, Booked(b, r.1), fundedOn, r.0) && r.1.decision == Some(d) && OrderedAt(r.1, ts)
      && (EntersPosition(r.1) ==> d.approved && d.signal.action.IsEntry())
  {
    var r := Execute(cfg, a, d, market, ts);
    var m := ExecuteMoves(cfg, a, d, market, ts);
    BookedOk(cfg, a, r.0, m, r.1, b, fundedOn);
    ReportsDecision(cfg, a, d, market, ts);
  }

  /** What one candle does, for the engine's books. */
  lemma CandleBooked(cfg: BrokerConfig, a: Account, c: Candle, b: Books, fundedOn: map<int, real>)
    requires cfg.Valid() && Filed(cfg, a) && BooksOk(cfg, b, fundedOn, a)
    ensures var r := OnCandle(cfg, a, c);
      if r.1.Some? then BooksOk(cfg, Booked(b, r.1.value), fundedOn, r.0) && !EntersPosition(r.1.value)
      else BooksOk(cfg, b, fundedOn, r.0)
  {
    var r := OnCandle(cfg, a, c);
    var m := OnCandleMoves(cfg, a, c);
    if r.1.Some? {
      BookedOk(cfg, a, r.0, m, r.1.value, b, fundedOn);
    } else {
      UnfilledBooked(cfg, a, r.0, b, fundedOn);
    }
  }

  /** A decision that is not deferred is refused: executing it only refreshes a mark. */
  lemma DirectIsRefused(cfg: BrokerConfig, a: Account, d: Decision, market: real, ts: int)
    requires Filed(cfg, a) && !Defers(d)
    ensures var r := Execute(cfg, a, d, Some(market), ts);
      !r.1.accepted && r.0 == a.(marks := a.marks[d.signal.pair := market])
  {
  }

  /** Managing stops fills nothing. */
  lemma ManagedBooked(cfg: BrokerConfig, a: Account, c: Candle, atr: Option<real>,
                      settings: StopManagement.ExitSettings, band: Option<TrailPolicies.Band>, b: Books,
                      fundedOn: map<int, real>)
    requires Filed(cfg, a) && BooksOk(cfg, b, fundedOn, a) && ManageExits(cfg, a, c, atr, settings, band).Ok?
    ensures BooksOk(cfg, b, fundedOn, ManageExits(cfg, a, c, atr, settings, band).value)
    ensures ManageExits(cfg, a, c, atr, settings, band).value.positions.Keys == a.positions.Keys
  {
    ManageExitsQuiet(cfg, a, c, atr, settings, band);
    UnfilledBooked(cfg, a, ManageExits(cfg, a, c, atr, settings, band).value, b, fundedOn);
  }

  /** A forced exit closes the position exactly when the closing price is positive. */
  lemma ForcedClose(cfg: BrokerConfig, a: Account, pair: string, c: Candle, reason: Reason)
    requires Filed(cfg, a) && pair in a.positions
    ensures var r := Execute(cfg, a, Forced(a.positions[pair], c, reason), Some(c.close), c.closeTime);
      && r.1.accepted == (c.close > 0.0)
      && r.0.positions == (if c.close > 0.0 then a.positions - {pair} else a.positions)
  {
  }

  // ------------------------------------------------------------------ halted days

  /** The kill switch has fired by candle `n` on that candle's day. */
  ghost predicate HaltedAt(candles: seq<Candle>, fired: set<nat>, n: nat)
    requires n < |candles|
  {
    exists i :: i in fired && i <= n && Day(candles[i].closeTime) == Day(candles[n].closeTime)
  }

  lemma HaltedIsFiredDay(candles: seq<Candle>, fired: set<nat>, n: nat)
    requires n < |candles| && forall i :: i in fired ==> i <= n
    ensures HaltedAt(candles, fired, n) <==> Day(candles[n].closeTime) in FiredDays(candles, fired)
  {
  }

  // ------------------------------------------------------------------ the journal of broker calls

  /** What the broker reports for a call. */
  ghost function Answer(cfg: BrokerConfig, a: Account, e: Event): Option<Report>
    requires Filed(cfg, a)
  {
    if e.Decided? then Some(Execute(cfg, a, e.d, e.market, e.ts).1)
    else if e.CandleClosed? then OnCandle(cfg, a, e.candle).1
    else None
  }

  /** The account after so many calls. */
  function AccountAt(cfg: BrokerConfig, journal: seq<Call>, x: nat): Account
    requires x <= |journal|
  {
    if x == 0 then Fresh(cfg) else journal[x - 1].after
  }

  /** How many candles those calls have closed. */
  function TurnAt(journal: seq<Call>, x: nat): nat
    requires x <= |journal|
  {
    if x == 0 then 0 else journal[x - 1].turn + (if journal[x - 1].event.CandleClosed? then 1 else 0)
  }

  /** How many of those calls have reported something. */
  function RankAt(journal: seq<Call>, x: nat): nat
    requires x <= |journal|
  {
    if x == 0 then 0 else journal[x - 1].rank + (if journal[x - 1].report.Some? then 1 else 0)
  }

  function Called(journal: seq<Call>, before: Account, e: Event, report: Option<Report>, after: Account): Call
  {
    Call(before, e, report, after, TurnAt(journal, |journal|), RankAt(journal, |journal|))
  }

  /**
   * The call does to its account what the broker does, and reports it. It is stated for every event equal to the
   * call's, so that only a proof that names one looks inside.
   */
  ghost predicate Genuine(cfg: BrokerConfig, c: Call)
  {
    Filed(cfg, c.before) && forall e :: e == c.event ==>
      c.after == Step(cfg, c.before, e) && c.report == Answer(cfg, c.before, e)
  }

  /** The calls a backtest makes: it is given no order books and locks nothing by hand. */
  predicate FromEngine(e: Event) { !e.BookReceived? && !e.ProfitLocked? && !e.ProfitUnlocked? }

  /** The call takes over where the one before it left off. */
  ghost predicate LinkedAt(cfg: BrokerConfig, journal: seq<Call>, x: nat)
    requires x < |journal|
  {
    var c := journal[x];
    && Genuine(cfg, c) && FromEngine(c.event) && c.before == AccountAt(cfg, journal, x)
    && c.turn == TurnAt(journal, x) && c.rank == RankAt(journal, x)
  }

  /** The account has lived through the calls of the journal, oldest first. */
  ghost predicate Lived(cfg: BrokerConfig, journal: seq<Call>, a: Account)
  {
    AccountAt(cfg, journal, |journal|) == a && forall x :: 0 <= x < |journal| ==> LinkedAt(cfg, journal, x)
  }

  lemma LivedOn(cfg: BrokerConfig, journal: seq<Call>, a: Account, e: Event, report: Option<Report>, b: Account)
    requires Lived(cfg, journal, a) && Genuine(cfg, Called(journal, a, e, report, b)) && FromEngine(e)
    ensures Lived(cfg, journal + [Called(journal, a, e, report, b)], b)
  {
    var more := journal + [Called(journal, a, e, report, b)];
    forall x | 0 <= x < |more| ensures LinkedAt(cfg, more, x) {
      if x < |journal| { assert LinkedAt(cfg, journal, x); }
    }
  }

  /** The log's `k`-th report is the `k`-th the broker gave. */
  ghost predicate Backed(journal: seq<Call>, log: seq<LogEntry>, k: nat)
    requires k < |log|
  {
    var e := log[k];
    e.index < |journal| && journal[e.index] == e.call && e.call.report == Some(e.report) && e.call.rank == k
  }

  /** Every report the broker has given is in the log, in order, but for the newest `owed`. */
  ghost predicate Recorded(journal: seq<Call>, log: seq<LogEntry>, owed: nat)
  {
    |log| + owed == RankAt(journal, |journal|) && forall k :: 0 <= k < |log| ==> Backed(journal, log, k)
  }

  lemma RecordedOn(journal: seq<Call>, log: seq<LogEntry>, before: Account, e: Event, report: Option<Report>,
                   after: Account)
    requires Recorded(journal, log, 0)
    ensures Recorded(journal + [Called(journal, before, e, report, after)], log, if report.Some? then 1 else 0)
  {
    var more := journal + [Called(journal, before, e, report, after)];
    forall k | 0 <= k < |log| ensures Backed(more, log, k) { assert Backed(journal, log, k); }
  }

  lemma OwedRecorded(journal: seq<Call>, log: seq<LogEntry>, r: Report, candle: nat, deferral: Option<nat>)
    requires Recorded(journal, log, 1) && journal != [] && journal[|journal| - 1].report == Some(r)
    ensures Recorded(journal, log + [LogEntry(r, candle, |journal| - 1, journal[|journal| - 1], deferral)], 0)
  {
    var more := log + [LogEntry(r, candle, |journal| - 1, journal[|journal| - 1], deferral)];
    forall k | 0 <= k < |more| ensures Backed(journal, more, k) {
      if k < |log| { assert Backed(journal, log, k); }
    }
  }

  /** An account that has lived through the journal, well filed, with the engine's books in agreement. */
  ghost predicate Accounted(cfg: BrokerConfig, journal: seq<Call>, a: Account, b: Books, fundedOn: map<int, real>)
  {
    cfg.Valid() && Filed(cfg, a) && Lived(cfg, journal, a) && BooksOk(cfg, b, fundedOn, a)
  }

  /** Each broker call, entered in the journal, leaves an accounted engine accounted. */
  lemma MarkedAccounted(cfg: BrokerConfig, journal: seq<Call>, a: Account, b: Books, fundedOn: map<int, real>,
                        prices: map<string, real>)
    requires Accounted(cfg, journal, a, b, fundedOn)
    ensures var next := a.(marks := a.marks + prices);
      Accounted(cfg, journal + [Called(journal, a, Marked(prices), None, next)], next, b, fundedOn)
  {
    LivedOn(cfg, journal, a, Marked(prices), None, a.(marks := a.marks + prices));
    MarkedBooked(cfg, a, a.marks + prices, b, fundedOn);
  }

  lemma DecidedAccounted(cfg: BrokerConfig, journal: seq<Call>, a: Account, b: Books, fundedOn: map<int, real>,
                         d: Decision, market: Option<real>, ts: int)
    requires Accounted(cfg, journal, a, b, fundedOn)
    ensures var r := Execute(cfg, a, d, market, ts);
      && Accounted(cfg, journal + [Called(journal, a, Decided(d, market, ts), Some(r.1), r.0)], r.0, Booked(b, r.1),
                   fundedOn)
      && r.1.decision == Some(d) && OrderedAt(r.1, ts)
      && (EntersPosition(r.1) ==> d.approved && d.signal.action.IsEntry())
  {
    var r := Execute(cfg, a, d, market, ts);
    DecidedBooked(cfg, a, d, market, ts, b, fundedOn);
    LivedOn(cfg, journal, a, Decided(d, market, ts), Some(r.1), r.0);
    var m := ExecuteMoves(cfg, a, d, market, ts);
    MoveKeepsFiled(cfg, a, r.0, m);
  }

  lemma CandleAccounted(cfg: BrokerConfig, journal: seq<Call>, a: Account, b: Books, fundedOn: map<int, real>,
                        c: Candle)
    requires Accounted(cfg, journal, a, b, fundedOn)
    ensures var r := OnCandle(cfg, a, c);
      && Accounted(cfg, journal + [Called(journal, a, CandleClosed(c), r.1, r.0)], r.0,
                   if r.1.Some? then Booked(b, r.1.value) else b, fundedOn)
      && (r.1.Some? ==> !EntersPosition(r.1.value))
  {
    var r := OnCandle(cfg, a, c);
    CandleBooked(cfg, a, c, b, fundedOn);
    LivedOn(cfg, journal, a, CandleClosed(c), r.1, r.0);
    var m := OnCandleMoves(cfg, a, c);
    MoveKeepsFiled(cfg, a, r.0, m);
  }

  lemma FundingAccounted(cfg: BrokerConfig, journal: seq<Call>, a: Account, next: Account, b: Books,
                         fundedOn: map<int, real>, prices: map<string, real>, rate: real, day: int, paid: real)
    requires Accounted(cfg, journal, a, b, fundedOn)
    requires next == ApplyFunding(a, prices, rate) && paid == next.fundingPaid - a.fundingPaid
    ensures Accounted(cfg, journal + [Called(journal, a, FundingPaid(prices, rate), None, next)], next,
                      b.(daily := Charge(b.daily, day, -paid)), Charge(fundedOn, day, paid))
  {
    FundingLived(cfg, journal, a, prices, rate);
    FundingBooked(cfg, a, next, paid, day, b, fundedOn);
  }

  lemma FundingLived(cfg: BrokerConfig, journal: seq<Call>, a: Account, prices: map<string, real>, rate: real)
    requires Filed(cfg, a) && Lived(cfg, journal, a)
    ensures var next := ApplyFunding(a, prices, rate);
      Filed(cfg, next) && Lived(cfg, journal + [Called(journal, a, FundingPaid(prices, rate), None, next)], next)
  {
    LivedOn(cfg, journal, a, FundingPaid(prices, rate), None, ApplyFunding(a, prices, rate));
  }

  lemma ManagedAccounted(cfg: BrokerConfig, journal: seq<Call>, a: Account, b: Books, fundedOn: map<int, real>,
                         c: Candle, atr: Option<real>, settings: StopManagement.ExitSettings,
                         band: Option<TrailPolicies.Band>)
    requires Accounted(cfg, journal, a, b, fundedOn) && ManageExits(cfg, a, c, atr, settings, band).Ok?
    ensures var next := ManageExits(cfg, a, c, atr, settings, band).value;
      && Accounted(cfg, journal + [Called(journal, a, ExitsManaged(c, atr, settings, band), None, next)], next, b,
                   fundedOn)
      && next.positions.Keys == a.positions.Keys
  {
    var next := ManageExits(cfg, a, c, atr, settings, band).value;
    ManagedBooked(cfg, a, c, atr, settings, band, b, fundedOn);
    LivedOn(cfg, journal, a, ExitsManaged(c, atr, settings, band), None, next);
    ManageExitsQuiet(cfg, a, c, atr, settings, band);
    MoveKeepsFiled(cfg, a, next, Quiet);
  }

  /**
   * An accounted engine whose log is up to date but for the reports owed, after so many candles closed. What it says
   * of the books is stated for all books equal to these, so that only a proof that asserts `Accounted` looks inside.
   */
  ghost predicate Stands(cfg: BrokerConfig, journal: seq<Call>, log: seq<LogEntry>, a: Account, b: Books,
                         fundedOn: map<int, real>, turn: nat, owed: nat)
  {
    && cfg.Valid() && Filed(cfg, a) && TurnAt(journal, |journal|) == turn && Recorded(journal, log, owed)
    && forall books :: books == b ==> Accounted(cfg, journal, a, books, fundedOn)
  }

  lemma StartStands(cfg: BrokerConfig)
    requires cfg.Valid()
    ensures Stands(cfg, [], [], Fresh(cfg), Books([], map[], map[]), map[], 0, 0)
  {
    assert Accounted(cfg, [], Fresh(cfg), Books([], map[], map[]), map[]);
  }

  lemma MarkedStands(cfg: BrokerConfig, journal: seq<Call>, log: seq<LogEntry>, a: Account, b: Books,
                     fundedOn: map<int, real>, turn: nat, prices: map<string, real>)
    requires Stands(cfg, journal, log, a, b, fundedOn, turn, 0)
    ensures var next := a.(marks := a.marks + prices);
      Stands(cfg, journal + [Called(journal, a, Marked(prices), None, next)], log, next, b, fundedOn, turn, 0)
  {
    MarkedAccounted(cfg, journal, a, b, fundedOn, prices);
    RecordedOn(journal, log, a, Marked(prices), None, a.(marks := a.marks + prices));
  }

  lemma DecidedStands(cfg: BrokerConfig, journal: seq<Call>, log: seq<LogEntry>, a: Account, b: Books,
                      fundedOn: map<int, real>, turn: nat, d: Decision, market: Option<real>, ts: int)
    requires Stands(cfg, journal, log, a, b, fundedOn, turn, 0)
    ensures var r := Execute(cfg, a, d, market, ts);
      && Stands(cfg, journal + [Called(journal, a, Decided(d, market, ts), Some(r.1), r.0)], log, r.0, Booked(b, r.1),
                fundedOn, turn, 1)
      && r.1.decision == Some(d) && OrderedAt(r.1, ts)
      && (EntersPosition(r.1) ==> d.approved && d.signal.action.IsEntry())
  {
    var r := Execute(cfg, a, d, market, ts);
    DecidedAccounted(cfg, journal, a, b, fundedOn, d, market, ts);
    RecordedOn(journal, log, a, Decided(d, market, ts), Some(r.1), r.0);
  }

  lemma CandleStands(cfg: BrokerConfig, journal: seq<Call>, log: seq<LogEntry>, a: Account, b: Books,
                     fundedOn: map<int, real>, turn: nat, c: Candle)
    requires Stands(cfg, journal, log, a, b, fundedOn, turn, 0)
    ensures var r := OnCandle(cfg, a, c);
      && Stands(cfg, journal + [Called(journal, a, CandleClosed(c), r.1, r.0)], log, r.0,
                if r.1.Some? then Booked(b, r.1.value) else b, fundedOn, turn + 1, if r.1.Some? then 1 else 0)
      && (r.1.Some? ==> !EntersPosition(r.1.value))
  {
    var r := OnCandle(cfg, a, c);
    CandleAccounted(cfg, journal, a, b, fundedOn, c);
    RecordedOn(journal, log, a, CandleClosed(c), r.1, r.0);
  }

  lemma FundingStands(cfg: BrokerConfig, journal: seq<Call>, log: seq<LogEntry>, a: Account, next: Account, b: Books,
                      fundedOn: map<int, real>, turn: nat, prices: map<string, real>, rate: real, day: int,
                      paid: real)
    requires Stands(cfg, journal, log, a, b, fundedOn, turn, 0)
    requires next == ApplyFunding(a, prices, rate) && paid == next.fundingPaid - a.fundingPaid
    ensures Stands(cfg, journal + [Called(journal, a, FundingPaid(prices, rate), None, next)], log, next,
                   b.(daily := Charge(b.daily, day, -paid)), Charge(fundedOn, day, paid), turn, 0)
  {
    FundingAccounted(cfg, journal, a, next, b, fundedOn, prices, rate, day, paid);
    RecordedOn(journal, log, a, FundingPaid(prices, rate), None, next);
  }

  lemma ManagedStands(cfg: BrokerConfig, journal: seq<Call>, log: seq<LogEntry>, a: Account, b: Books,
                      fundedOn: map<int, real>, turn: nat, c: Candle, atr: Option<real>,
                      settings: StopManagement.ExitSettings, band: Option<TrailPolicies.Band>)
    requires Stands(cfg, journal, log, a, b, fundedOn, turn, 0) && ManageExits(cfg, a, c, atr, settings, band).Ok?
    ensures var next := ManageExits(cfg, a, c, atr, settings, band).value;
      && Stands(cfg, journal + [Called(journal, a, ExitsManaged(c, atr, settings, band), None, next)], log, next, b,
                fundedOn, turn, 0)
      && next.positions.Keys == a.positions.Keys
  {
    ManagedAccounted(cfg, journal, a, b, fundedOn, c, atr, settings, band);
    RecordedOn(journal, log, a, ExitsManaged(c, atr, settings, band), None,
               ManageExits(cfg, a, c, atr, settings, band).value);
  }

  lemma ReportStands(cfg: BrokerConfig, journal: seq<Call>, log: seq<LogEntry>, a: Account, b: Books,
                     fundedOn: map<int, real>, turn: nat, r: Report, candle: nat, deferral: Option<nat>)
    requires Stands(cfg, journal, log, a, b, fundedOn, turn, 1) && journal != []
      && journal[|journal| - 1].report == Some(r)
    ensures var e := LogEntry(r, candle, |journal| - 1, journal[|journal| - 1], deferral);
      Stands(cfg, journal, log + [e], a, b, fundedOn, turn, 0)
  {
    assert Accounted(cfg, journal, a, b, fundedOn);
    OwedRecorded(journal, log, r, candle, deferral);
  }

  /** A report in the log is the broker's, for a call that did what the broker does. */
  lemma StandsBacked(cfg: BrokerConfig, journal: seq<Call>, log: seq<LogEntry>, a: Account, b: Books,
                     fundedOn: map<int, real>, turn: nat, k: nat)
    requires Stands(cfg, journal, log, a, b, fundedOn, turn, 0) && k < |log|
    ensures Backed(journal, log, k) && Genuine(cfg, log[k].call)
  {
    assert Accounted(cfg, journal, a, b, fundedOn) && Backed(journal, log, k);
    assert LinkedAt(cfg, journal, log[k].index);
  }

  /** A decision that is not to be deferred is refused when it is executed. */
  lemma RefusedCall(cfg: BrokerConfig, journal: seq<Call>, a: Account, x: nat)
    requires Lived(cfg, journal, a) && x < |journal|
    requires var e := journal[x].event; e.Decided? && e.market.Some? && !Defers(e.d)
    ensures journal[x].report.Some? && !journal[x].report.value.accepted
  {
    assert LinkedAt(cfg, journal, x);
    var c := journal[x];
    assert c.report == Answer(cfg, c.before, c.event);
    DirectIsRefused(cfg, c.before, c.event.d, c.event.market.value, c.event.ts);
  }

  /** What the engine needs to know of its own account. */
  lemma StandsNow(cfg: BrokerConfig, journal: seq<Call>, log: seq<LogEntry>, a: Account, b: Books,
                  fundedOn: map<int, real>, turn: nat, owed: nat)
    requires Stands(cfg, journal, log, a, b, fundedOn, turn, owed)
    ensures AccountAt(cfg, journal, |journal|) == a && Filed(cfg, a)
    ensures BooksAgree(b.trades, b.legs, b.daily, a)
  {
    assert Accounted(cfg, journal, a, b, fundedOn);
  }

  /** The first `x` calls, without what they did. */
  function Events(journal: seq<Call>, x: nat): (events: seq<Event>)
    requires x <= |journal|
    ensures |events| == x
  {
    if x == 0 then [] else Events(journal, x - 1) + [journal[x - 1].event]
  }

  /** After any number of calls the account is what the run of those calls arrives at. */
  lemma {:induction false} LivedIsRun(cfg: BrokerConfig, journal: seq<Call>, a: Account, x: nat)
    requires cfg.Valid() && Lived(cfg, journal, a) && x <= |journal|
    ensures AccountAt(cfg, journal, x) == Run(cfg, Events(journal, x))
  {
    if x > 0 {
      LivedIsRun(cfg, journal, a, x - 1);
      assert LinkedAt(cfg, journal, x - 1);
      assert Events(journal, x)[..x - 1] == Events(journal, x - 1);
    }
  }

  lemma {:induction false} TurnsRise(cfg: BrokerConfig, journal: seq<Call>, a: Account, x: nat, y: nat)
    requires Lived(cfg, journal, a) && x <= y <= |journal|
    ensures TurnAt(journal, x) <= TurnAt(journal, y)
  {
    if x < y {
      assert LinkedAt(cfg, journal, y - 1);
      TurnsRise(cfg, journal, a, x, y - 1);
    }
  }

  /** A call that enters nothing leaves a flat account flat. */
  lemma FlatCall(cfg: BrokerConfig, c: Call)
    requires cfg.Valid() && Genuine(cfg, c) && c.before.positions == map[]
    requires c.report.Some? ==> !EntersPosition(c.report.value)
    ensures c.after.positions == map[]
  {
    var e := c.event;
    assert c.after == Step(cfg, c.before, e) && c.report == Answer(cfg, c.before, e);
    if e.Decided? {
      var m := ExecuteMoves(cfg, c.before, e.d, e.market, e.ts);
    } else {
      var m := StepMoves(cfg, c.before, e);
    }
  }

  /** So an account stays flat until a call enters. */
  lemma {:induction false} FlatStretch(cfg: BrokerConfig, journal: seq<Call>, a: Account, x: nat, y: nat)
    requires cfg.Valid() && Lived(cfg, journal, a) && x <= y <= |journal|
    requires AccountAt(cfg, journal, x).positions == map[]
    requires forall z :: x <= z < y && journal[z].report.Some? ==> !EntersPosition(journal[z].report.value)
    ensures AccountAt(cfg, journal, y).positions == map[]
  {
    if x < y {
      FlatStretch(cfg, journal, a, x, y - 1);
      assert LinkedAt(cfg, journal, y - 1);
      FlatCall(cfg, journal[y - 1]);
    }
  }

  /** The call is not an entry the broker accepted, or it buys for a long and sells for a short. */
  ghost predicate CallAligned(c: Call)
  {
    c.report.Some? && EntersPosition(c.report.value) && c.event.Decided? ==> Aligned(c.event.d)
  }

  lemma CallEntersAligned(cfg: BrokerConfig, c: Call)
    requires cfg.Valid() && Genuine(cfg, c)
    ensures EntersAligned(cfg, c.before, c.event) <==> CallAligned(c)
  {
    var e := c.event;
    assert c.report == Answer(cfg, c.before, e);
    if e.Decided? {
      var m := ExecuteMoves(cfg, c.before, e.d, e.market, e.ts);
    }
  }

  /** The entries the broker accepts are aligned when those in the journal are. */
  lemma {:induction false} JournalAligned(cfg: BrokerConfig, journal: seq<Call>, a: Account, x: nat)
    requires cfg.Valid() && Lived(cfg, journal, a) && x <= |journal|
    ensures AllAligned(cfg, Events(journal, x)) <==> forall z :: 0 <= z < x ==> CallAligned(journal[z])
  {
    if x > 0 {
      JournalAligned(cfg, journal, a, x - 1);
      assert LinkedAt(cfg, journal, x - 1);
      CallEntersAligned(cfg, journal[x - 1]);
      LivedIsRun(cfg, journal, a, x - 1);
      assert Events(journal, x)[..x - 1] == Events(journal, x - 1);
    }
  }

  lemma {:induction false} RanksRise(cfg: BrokerConfig, journal: seq<Call>, a: Account, x: nat, y: nat)
    requires Lived(cfg, journal, a) && x < y <= |journal|
    ensures RankAt(journal, x) + (if journal[x].report.Some? then 1 else 0) <= RankAt(journal, y)
  {
    assert LinkedAt(cfg, journal, y - 1);
    if x < y - 1 { RanksRise(cfg, journal, a, x, y - 1); }
  }

  /** Every report of the broker is in the log exactly once, and nothing else is. */
  lemma ReportsAreLogged(cfg: BrokerConfig, journal: seq<Call>, a: Account, log: seq<LogEntry>, x: nat)
    requires Lived(cfg, journal, a) && Recorded(journal, log, 0) && x < |journal| && journal[x].report.Some?
    ensures forall k: nat :: k < |log| ==> (log[k].index == x <==> k == journal[x].rank)
    ensures journal[x].rank < |log| && log[journal[x].rank].report == journal[x].report.value
  {
    assert LinkedAt(cfg, journal, x);
    RanksRise(cfg, journal, a, x, |journal|);
    forall k: nat | k < |log| ensures log[k].index == x <==> k == journal[x].rank {
      assert Backed(journal, log, k);
      var y := log[k].index;
      assert LinkedAt(cfg, journal, y);
      if y < x { RanksRise(cfg, journal, a, y, x); }
      if x < y { RanksRise(cfg, journal, a, x, y); }
    }
    assert Backed(journal, log, journal[x].rank);
  }
}
