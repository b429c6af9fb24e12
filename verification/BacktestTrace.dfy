/** What a backtest run leaves behind, and what follows from it. */
module BacktestTrace {
  import opened Common
  import opened Market
  import opened Sums
  import opened Ledger
  import opened LedgerMoves
  import opened LedgerRuns
  import opened SafetyGuard

  /** A decision put off to a later candle's open: the `slot`-th one made on that candle. */
  datatype Deferral = Deferral(decision: Decision, generatedAt: int, candle: nat, slot: nat)

  /**
   * One broker call: the account before and after it, what it reported, how many candles had
   * been closed before it and how many calls before it had reported something.
   */
  datatype Call = Call(before: Account, event: Event, report: Option<Report>, after: Account, turn: nat, rank: nat)

  /** One report: the candle being processed, the broker call it came from, the deferral it answers. */
  datatype LogEntry = LogEntry(report: Report, candle: nat, index: nat, call: Call, deferral: Option<nat>)

  /** `fate` maps each answered deferral to its report; `fired` holds the candles on which the kill switch fired. */
  datatype Trace = Trace(deferred: seq<Deferral>, log: seq<LogEntry>, fate: map<nat, nat>, fired: set<nat>)

  /** An entry of the engine's pending list. */
  datatype Pending = Pending(decision: Decision, generatedAt: int)

  ghost predicate EntersPosition(r: Report) { r.accepted && r.order.Some? && r.order.value.action.IsEntry() }

  /** Every candle between the generating one and `until` opens no later than the generating close. */
  ghost predicate NoneOpens(candles: seq<Candle>, d: Deferral, until: int)
  {
    forall c :: d.candle < c < until && c < |candles| ==> candles[c].openTime <= d.generatedAt
  }

  /** An accepted report's order carries this time. */
  ghost predicate OrderedAt(r: Report, ts: int) { r.accepted ==> r.order.Some? && r.order.value.timestamp == ts }

  /** Executed at the open of the first candle after the generating one that opens after its close. */
  ghost predicate FilledAtNextOpen(candles: seq<Candle>, d: Deferral, e: LogEntry)
  {
    && d.candle < e.candle < |candles| && d.generatedAt < candles[e.candle].openTime
    && NoneOpens(candles, d, e.candle) && e.call.turn == e.candle
    && e.call.event == Decided(d.decision, Some(candles[e.candle].open), candles[e.candle].openTime)
    && OrderedAt(e.report, candles[e.candle].openTime)
  }

  /** `RiskDecision(approved=False, ...)`: nothing but the signal. */
  function Rejection(s: Signal): Decision { Decision(false, s, None, None, None, map[]) }

  /** Refused when the run ended without such a candle. */
  ghost predicate RejectedAtEnd(candles: seq<Candle>, d: Deferral, e: LogEntry)
  {
    && candles != [] && NoneOpens(candles, d, |candles|) && e.call.turn == |candles| && !e.report.accepted
    && var last := candles[|candles| - 1];
    e.call.event == Decided(Rejection(d.decision.signal), Some(last.close), last.closeTime)
  }

  ghost predicate DeferralOk(candles: seq<Candle>, t: Trace, id: nat)
    requires id < |t.deferred|
  {
    var d := t.deferred[id];
    && d.candle < |candles| && d.generatedAt == candles[d.candle].closeTime
    && forall i :: i in t.fired && i < |candles| && i <= d.candle ==>
       Day(candles[i].closeTime) != Day(candles[d.candle].closeTime)
  }

  ghost predicate FateOk(candles: seq<Candle>, t: Trace, id: nat)
    requires id in t.fate
  {
    && id < |t.deferred| && t.fate[id] < |t.log| && t.log[t.fate[id]].deferral == Some(id)
    && (FilledAtNextOpen(candles, t.deferred[id], t.log[t.fate[id]])
        || RejectedAtEnd(candles, t.deferred[id], t.log[t.fate[id]]))
  }

  ghost predicate EntryOk(t: Trace, k: nat)
    requires k < |t.log|
  {
    && (EntersPosition(t.log[k].report) ==> t.log[k].deferral.Some?)
    && (t.log[k].deferral.Some? ==> t.log[k].deferral.value in t.fate && t.fate[t.log[k].deferral.value] == k)
  }

  /** While it is unanswered, no candle seen so far opened after the deferral was generated. */
  ghost predicate Waits(candles: seq<Candle>, t: Trace, id: nat, n: nat)
    requires id < |t.deferred|
  {
    id !in t.fate ==> NoneOpens(candles, t.deferred[id], n)
  }

  /** The bookkeeping invariant once the pending queue has seen the first `n` candles. */
  ghost predicate TraceOk(candles: seq<Candle>, n: nat, t: Trace)
  {
    && (forall id :: 0 <= id < |t.deferred| ==> DeferralOk(candles, t, id))
    && (forall id {:trigger FateOk(candles, t, id)} :: id in t.fate ==> FateOk(candles, t, id))
    && (forall k :: 0 <= k < |t.log| ==> EntryOk(t, k))
    && (forall id :: 0 <= id < |t.deferred| ==> Waits(candles, t, id, n))
  }

  /** The pending list holds exactly the unanswered deferrals, oldest first. */
  ghost predicate Listed(t: Trace, ids: seq<nat>)
  {
    && (forall i, j :: 0 <= i < j < |ids| ==> ids[i] < ids[j])
    && (forall id: nat :: id in ids <==> id < |t.deferred| && id !in t.fate)
  }

  // ------------------------------------------------------------------ how a run extends its trace

  /** A report that answers no deferral. */
  function Logged(t: Trace, r: Report, candle: nat, index: nat, call: Call): Trace
  {
    t.(log := t.log + [LogEntry(r, candle, index, call, None)])
  }

  function Answered(t: Trace, id: nat, r: Report, candle: nat, index: nat, call: Call): Trace
  {
    t.(log := t.log + [LogEntry(r, candle, index, call, Some(id))], fate := t.fate[id := |t.log|])
  }

  function Deferred(t: Trace, d: Deferral): Trace { t.(deferred := t.deferred + [d]) }

  function Fired(t: Trace, candle: nat): Trace { t.(fired := t.fired + {candle}) }

  lemma LoggedOk(candles: seq<Candle>, n: nat, t: Trace, r: Report, candle: nat, index: nat, call: Call)
    requires TraceOk(candles, n, t) && !EntersPosition(r)
    ensures TraceOk(candles, n, Logged(t, r, candle, index, call))
  {
    var u := Logged(t, r, candle, index, call);
    forall k | 0 <= k < |u.log| ensures EntryOk(u, k) {
      if k < |t.log| { assert EntryOk(t, k); }
    }
    forall id | id in u.fate ensures FateOk(candles, u, id) { assert FateOk(candles, t, id); }
    forall id | 0 <= id < |u.deferred| ensures DeferralOk(candles, u, id) && Waits(candles, u, id, n) {
      assert DeferralOk(candles, t, id) && Waits(candles, t, id, n);
    }
  }

  lemma AnsweredOk(candles: seq<Candle>, n: nat, t: Trace, id: nat, r: Report, candle: nat, index: nat, call: Call)
    requires TraceOk(candles, n, t) && id < |t.deferred| && id !in t.fate
    requires var e := LogEntry(r, candle, index, call, Some(id));
      FilledAtNextOpen(candles, t.deferred[id], e) || RejectedAtEnd(candles, t.deferred[id], e)
    ensures TraceOk(candles, n, Answered(t, id, r, candle, index, call))
  {
    var u := Answered(t, id, r, candle, index, call);
    forall k | 0 <= k < |u.log| ensures EntryOk(u, k) {
      if k < |t.log| { assert EntryOk(t, k); }
    }
    forall j | j in u.fate ensures FateOk(candles, u, j) {
      if j != id { assert FateOk(candles, t, j); }
    }
    forall j | 0 <= j < |u.deferred| ensures DeferralOk(candles, u, j) && Waits(candles, u, j, n) {
      assert DeferralOk(candles, t, j) && Waits(candles, t, j, n);
    }
  }

  lemma DeferredOk(candles: seq<Candle>, n: nat, t: Trace, d: Deferral)
    requires TraceOk(candles, n, t) && n == d.candle + 1 && d.candle < |candles|
    requires d.generatedAt == candles[d.candle].closeTime
    requires forall i :: i in t.fired && i < |candles| && i <= d.candle ==>
      Day(candles[i].closeTime) != Day(candles[d.candle].closeTime)
    ensures TraceOk(candles, n, Deferred(t, d))
  {
    var u := Deferred(t, d);
    forall k | 0 <= k < |u.log| ensures EntryOk(u, k) { assert EntryOk(t, k); }
    forall id | id in u.fate ensures FateOk(candles, u, id) { assert FateOk(candles, t, id); }
    forall id | 0 <= id < |u.deferred| ensures DeferralOk(candles, u, id) {
      if id < |t.deferred| { assert DeferralOk(candles, t, id); }
    }
    forall id | 0 <= id < |u.deferred| ensures Waits(candles, u, id, n) {
      if id < |t.deferred| { assert Waits(candles, t, id, n); }
    }
  }

  /** Firing is recorded while no decision of that candle has been deferred yet. */
  lemma FiredOk(candles: seq<Candle>, n: nat, t: Trace, candle: nat)
    requires TraceOk(candles, n, t)
    requires forall id :: 0 <= id < |t.deferred| ==> t.deferred[id].candle < candle
    ensures TraceOk(candles, n, Fired(t, candle))
  {
    var u := Fired(t, candle);
    forall k | 0 <= k < |u.log| ensures EntryOk(u, k) { assert EntryOk(t, k); }
    forall id | id in u.fate ensures FateOk(candles, u, id) { assert FateOk(candles, t, id); }
    forall id | 0 <= id < |u.deferred| ensures DeferralOk(candles, u, id) && Waits(candles, u, id, n) {
      assert DeferralOk(candles, t, id) && Waits(candles, t, id, n);
    }
  }

  // ------------------------------------------------------------------ the pending list

  /** The days on which the kill switch has fired. */
  ghost function FiredDays(candles: seq<Candle>, fired: set<nat>): set<int>
  {
    set i | i in fired && i < |candles| :: Day(candles[i].closeTime)
  }

  ghost predicate MirrorsAt(t: Trace, ids: seq<nat>, pending: seq<Pending>, k: nat)
    requires k < |ids| == |pending|
  {
    ids[k] < |t.deferred| && pending[k] == Pending(t.deferred[ids[k]].decision, t.deferred[ids[k]].generatedAt)
  }

  ghost predicate Mirrors(t: Trace, ids: seq<nat>, pending: seq<Pending>)
  {
    |ids| == |pending| && forall k :: 0 <= k < |ids| ==> MirrorsAt(t, ids, pending, k)
  }

  /** The log holds the reports, each with a candle of the run. */
  ghost predicate Logs(candles: seq<Candle>, t: Trace, reports: seq<Report>)
  {
    |t.log| == |reports| && forall k :: 0 <= k < |reports| ==> LogsAt(candles, t, reports, k)
  }

  ghost predicate LogsAt(candles: seq<Candle>, t: Trace, reports: seq<Report>, k: nat)
    requires k < |t.log| == |reports|
  {
    t.log[k].report == reports[k] && t.log[k].candle < |candles|
  }

  /** Every deferral was made on one of the first `made` candles, every firing on one of the first `seen`. */
  ghost predicate Bounded(t: Trace, seen: nat, made: nat)
  {
    (forall k :: 0 <= k < |t.deferred| ==> MadeBefore(t, k, made)) && forall i :: i in t.fired ==> i < seen
  }

  ghost predicate MadeBefore(t: Trace, k: nat, made: nat)
    requires k < |t.deferred|
  {
    t.deferred[k].candle < made
  }

  /**
   * The pending list and the reports mirror the trace: the queue has seen the opens of the
   * first `seen` candles, and decisions were deferred on the first `made`.
   */
  ghost predicate QueueOk(candles: seq<Candle>, seen: nat, made: nat, t: Trace, ids: seq<nat>, pending: seq<Pending>,
                          reports: seq<Report>)
  {
    TraceOk(candles, seen, t) && Listed(t, ids) && Mirrors(t, ids, pending) && Logs(candles, t, reports)
      && Bounded(t, seen, made)
  }

  lemma QueueStart(candles: seq<Candle>)
    ensures QueueOk(candles, 0, 0, Trace([], [], map[], {}), [], [], []) && FiredDays(candles, {}) == {}
  {
    var t := Trace([], [], map[], {});
    assert TraceOk(candles, 0, t);
    assert Listed(t, []);
    assert Mirrors(t, [], []) && Logs(candles, t, []);
  }

  /**
   * A trace that differs only in log and fate keeps its mirror and bounds; one more log entry matches one more report.
   */
  lemma LogGrows(candles: seq<Candle>, t: Trace, u: Trace, seen: nat, made: nat, ids: seq<nat>, pending: seq<Pending>,
                 reports: seq<Report>)
    requires Mirrors(t, ids, pending) && Logs(candles, t, reports) && Bounded(t, seen, made)
    requires u.deferred == t.deferred && u.fired == t.fired && |u.log| == |t.log| + 1 && u.log[..|t.log|] == t.log
    requires u.log[|t.log|].candle < |candles|
    ensures Mirrors(u, ids, pending) && Logs(candles, u, reports + [u.log[|t.log|].report]) && Bounded(u, seen, made)
  {
    var more := reports + [u.log[|t.log|].report];
    forall k | 0 <= k < |ids| ensures MirrorsAt(u, ids, pending, k) { assert MirrorsAt(t, ids, pending, k); }
    forall k | 0 <= k < |more| ensures LogsAt(candles, u, more, k) {
      if k < |reports| {
        assert LogsAt(candles, t, reports, k);
        assert u.log[k] == u.log[..|t.log|][k];
      }
    }
    forall k | 0 <= k < |u.deferred| ensures MadeBefore(u, k, made) { assert MadeBefore(t, k, made); }
  }

  lemma QueueLogged(candles: seq<Candle>, seen: nat, made: nat, t: Trace, ids: seq<nat>, pending: seq<Pending>,
                    reports: seq<Report>, r: Report, candle: nat, index: nat, call: Call)
    requires QueueOk(candles, seen, made, t, ids, pending, reports) && !EntersPosition(r) && candle < |candles|
    ensures QueueOk(candles, seen, made, Logged(t, r, candle, index, call), ids, pending, reports + [r])
  {
    LoggedOk(candles, seen, t, r, candle, index, call);
    LogGrows(candles, t, Logged(t, r, candle, index, call), seen, made, ids, pending, reports);
  }

  /** Answering one pending decision takes it, and only it, off the list. */
  lemma QueueAnswered(candles: seq<Candle>, seen: nat, made: nat, t: Trace, front: seq<nat>, id: nat, rest: seq<nat>,
                      pendingFront: seq<Pending>, pendingRest: seq<Pending>, reports: seq<Report>, r: Report,
                      candle: nat, index: nat, call: Call)
    requires pendingRest != [] && |front| == |pendingFront|
    requires QueueOk(candles, seen, made, t, front + [id] + rest, pendingFront + pendingRest, reports)
    requires candle < |candles| && id < |t.deferred|
    requires var e := LogEntry(r, candle, index, call, Some(id));
      FilledAtNextOpen(candles, t.deferred[id], e) || RejectedAtEnd(candles, t.deferred[id], e)
    ensures QueueOk(candles, seen, made, Answered(t, id, r, candle, index, call), front + rest,
                    pendingFront + pendingRest[1..], reports + [r])
  {
    var ids, left := front + [id] + rest, front + rest;
    assert ids[|front|] == id;
    assert id in ids;
    AnsweredOk(candles, seen, t, id, r, candle, index, call);
    var u := Answered(t, id, r, candle, index, call);
    ListedWithout(t, front, id, rest, |t.log|);
    assert Listed(u, left);
    MirrorsWithout(t, front, id, rest, pendingFront, pendingRest);
    LogGrows(candles, t, u, seen, made, left, pendingFront + pendingRest[1..], reports);
  }

  lemma ListedWithout(t: Trace, front: seq<nat>, id: nat, rest: seq<nat>, k: nat)
    requires Listed(t, front + [id] + rest)
    ensures Listed(t.(fate := t.fate[id := k]), front + rest)
  {
    var ids, left, u := front + [id] + rest, front + rest, t.(fate := t.fate[id := k]);
    assert forall j :: 0 <= j < |left| ==> left[j] == ids[if j < |front| then j else j + 1];
    forall x: nat ensures x in left <==> x < |u.deferred| && x !in u.fate {
      assert x in ids <==> x in left || x == id;
      assert ids[|front|] == id;
      if id in left {
        var j :| 0 <= j < |left| && left[j] == id;
      }
    }
  }

  lemma MirrorsWithout(t: Trace, front: seq<nat>, id: nat, rest: seq<nat>, pendingFront: seq<Pending>,
                       pendingRest: seq<Pending>)
    requires pendingRest != [] && |front| == |pendingFront|
    requires Mirrors(t, front + [id] + rest, pendingFront + pendingRest)
    ensures Mirrors(t, front + rest, pendingFront + pendingRest[1..])
  {
    var ids, left := front + [id] + rest, front + rest;
    forall j | 0 <= j < |left| ensures MirrorsAt(t, left, pendingFront + pendingRest[1..], j) {
      var i := if j < |front| then j else j + 1;
      assert MirrorsAt(t, ids, pendingFront + pendingRest, i);
      assert left[j] == ids[i];
    }
  }

  lemma DeferralGrows(candles: seq<Candle>, t: Trace, u: Trace, ids: seq<nat>, pending: seq<Pending>,
                      reports: seq<Report>, candle: nat)
    requires Mirrors(t, ids, pending) && Logs(candles, t, reports) && Bounded(t, candle + 1, candle + 1)
    requires u.log == t.log && u.fired == t.fired && |u.deferred| == |t.deferred| + 1
      && u.deferred[..|t.deferred|] == t.deferred
    requires u.deferred[|t.deferred|].candle == candle
    ensures var d := u.deferred[|t.deferred|];
      Mirrors(u, ids + [|t.deferred|], pending + [Pending(d.decision, d.generatedAt)])
    ensures Logs(candles, u, reports) && Bounded(u, candle + 1, candle + 1)
  {
    var d := u.deferred[|t.deferred|];
    var more, waiting := ids + [|t.deferred|], pending + [Pending(d.decision, d.generatedAt)];
    forall k | 0 <= k < |more| ensures MirrorsAt(u, more, waiting, k) {
      if k < |ids| {
        assert MirrorsAt(t, ids, pending, k);
        assert u.deferred[ids[k]] == u.deferred[..|t.deferred|][ids[k]];
      }
    }
    forall k | 0 <= k < |reports| ensures LogsAt(candles, u, reports, k) { assert LogsAt(candles, t, reports, k); }
    var made := candle + 1;
    forall k | 0 <= k < |u.deferred| ensures MadeBefore(u, k, made) {
      if k < |t.deferred| {
        assert MadeBefore(t, k, made);
        assert u.deferred[k] == u.deferred[..|t.deferred|][k];
      }
    }
  }

  lemma QueueDeferred(candles: seq<Candle>, candle: nat, t: Trace, ids: seq<nat>, pending: seq<Pending>,
                      reports: seq<Report>, d: Decision, slot: nat)
    requires candle < |candles| && QueueOk(candles, candle + 1, candle + 1, t, ids, pending, reports)
    requires Day(candles[candle].closeTime) !in FiredDays(candles, t.fired)
    ensures var at := candles[candle].closeTime;
      QueueOk(candles, candle + 1, candle + 1, Deferred(t, Deferral(d, at, candle, slot)), ids + [|t.deferred|],
              pending + [Pending(d, at)], reports)
  {
    var u := Deferred(t, Deferral(d, candles[candle].closeTime, candle, slot));
    DeferredOk(candles, candle + 1, t, Deferral(d, candles[candle].closeTime, candle, slot));
    var more := ids + [|t.deferred|];
    DeferralGrows(candles, t, u, ids, pending, reports, candle);
    forall id | id in t.fate ensures id < |t.deferred| { assert FateOk(candles, t, id); }
    forall x: nat ensures x in more <==> x < |u.deferred| && x !in u.fate {
      assert x in more <==> x in ids || x == |t.deferred|;
    }
    forall i, j | 0 <= i < j < |more| ensures more[i] < more[j] {
      assert more[i] in ids;
    }
  }

  lemma QueueFired(candles: seq<Candle>, candle: nat, t: Trace, ids: seq<nat>, pending: seq<Pending>,
                   reports: seq<Report>)
    requires candle < |candles| && QueueOk(candles, candle + 1, candle, t, ids, pending, reports)
    ensures QueueOk(candles, candle + 1, candle, Fired(t, candle), ids, pending, reports)
    ensures FiredDays(candles, Fired(t, candle).fired) == FiredDays(candles, t.fired) + {Day(candles[candle].closeTime)}
  {
    var u := Fired(t, candle);
    forall k | 0 <= k < |t.deferred| ensures MadeBefore(u, k, candle)
      && t.deferred[k].candle < candle { assert MadeBefore(t, k, candle); }
    FiredOk(candles, candle + 1, t, candle);
    forall k | 0 <= k < |ids| ensures MirrorsAt(u, ids, pending, k) { assert MirrorsAt(t, ids, pending, k); }
    forall k | 0 <= k < |reports| ensures LogsAt(candles, u, reports, k) { assert LogsAt(candles, t, reports, k); }
  }

  lemma QueueFirings(candles: seq<Candle>, seen: nat, made: nat, t: Trace, ids: seq<nat>, pending: seq<Pending>,
                     reports: seq<Report>)
    requires QueueOk(candles, seen, made, t, ids, pending, reports)
    ensures forall i :: i in t.fired ==> i < seen
  {
  }

  lemma QueueMade(candles: seq<Candle>, n: nat, t: Trace, ids: seq<nat>, pending: seq<Pending>, reports: seq<Report>)
    requires QueueOk(candles, n + 1, n, t, ids, pending, reports)
    ensures QueueOk(candles, n + 1, n + 1, t, ids, pending, reports)
  {
    var made := n + 1;
    forall k | 0 <= k < |t.deferred| ensures MadeBefore(t, k, made) { assert MadeBefore(t, k, n); }
  }

  /** Whatever is still pending after a candle's open was generated no earlier than that open. */
  lemma QueueAdvances(candles: seq<Candle>, n: nat, t: Trace, ids: seq<nat>, pending: seq<Pending>,
                      reports: seq<Report>)
    requires n < |candles| && QueueOk(candles, n, n, t, ids, pending, reports)
    requires forall k :: 0 <= k < |pending| ==> pending[k].generatedAt >= candles[n].openTime
    ensures QueueOk(candles, n + 1, n, t, ids, pending, reports)
  {
    var next := n + 1;
    forall id | 0 <= id < |t.deferred| ensures Waits(candles, t, id, next) {
      assert Waits(candles, t, id, n);
      if id !in t.fate {
        assert id in ids;
        var k :| 0 <= k < |ids| && ids[k] == id;
        assert MirrorsAt(t, ids, pending, k);
      }
    }
  }

  /** On separate candles nothing stays pending past the next open. */
  lemma SeparateDrains(candles: seq<Candle>, n: nat, t: Trace, ids: seq<nat>, pending: seq<Pending>,
                       reports: seq<Report>)
    requires n < |candles| && QueueOk(candles, n + 1, n, t, ids, pending, reports)
    ensures Separate(candles) ==> pending == []
  {
    if Separate(candles) && pending != [] {
      var id := ids[0];
      assert id in ids;
      assert DeferralOk(candles, t, id) && Waits(candles, t, id, n + 1) && MadeBefore(t, id, n);
      FillIsNext(candles, t.deferred[id], n + 1);
    }
  }

  // ------------------------------------------------------------------ what follows

  lemma DayMonotone(x: int, y: int)
    requires x <= y
    ensures Day(x) <= Day(y)
  {
  }

  /** On separate candles the very next candle opens after the generating close. */
  lemma FillIsNext(candles: seq<Candle>, d: Deferral, until: nat)
    requires Separate(candles) && d.candle < |candles| && d.generatedAt == candles[d.candle].closeTime
    requires NoneOpens(candles, d, until)
    ensures until <= d.candle + 1 || |candles| <= d.candle + 1
  {
    if d.candle + 1 < |candles| {
      assert candles[d.candle].closeTime < candles[d.candle + 1].openTime;
    }
  }

  /** The generating day of a filled deferral lies between its generating candle and its fill. */
  lemma SameDayBetween(candles: seq<Candle>, i: nat, g: nat, j: nat)
    requires Separate(candles) && i <= g <= j < |candles|
    requires Day(candles[i].closeTime) == Day(candles[j].closeTime)
    ensures Day(candles[g].closeTime) == Day(candles[i].closeTime)
  {
    assert i < g ==> candles[i].closeTime < candles[g].openTime <= candles[g].closeTime;
    assert g < j ==> candles[g].closeTime < candles[j].openTime <= candles[j].closeTime;
    DayMonotone(candles[i].closeTime, candles[g].closeTime);
    DayMonotone(candles[g].closeTime, candles[j].closeTime);
  }

  /** Filled entries were generated one candle earlier, on a day the kill switch had not stopped. */
  lemma EntryWasDeferred(candles: seq<Candle>, n: nat, t: Trace, k: nat) returns (id: nat)
    requires TraceOk(candles, n, t) && k < |t.log| && EntersPosition(t.log[k].report)
    ensures id < |t.deferred| && t.log[k].deferral == Some(id) && DeferralOk(candles, t, id)
    ensures FilledAtNextOpen(candles, t.deferred[id], t.log[k])
  {
    assert EntryOk(t, k);
    id := t.log[k].deferral.value;
    assert FateOk(candles, t, id);
    assert DeferralOk(candles, t, id);
  }

  /**
   * Kill-switch safety: once the daily loss switch has fired on candle `i`, no entry is
   * filled at the open of any later candle `j` of that day.
   */
  lemma KillSwitchBlocksEntries(candles: seq<Candle>, n: nat, t: Trace, i: nat, j: nat, k: nat)
    requires TraceOk(candles, n, t) && Separate(candles) && k < |t.log|
    requires i in t.fired && i < j < |candles| && Day(candles[j].closeTime) == Day(candles[i].closeTime)
    requires EntersPosition(t.log[k].report)
    ensures t.log[k].report.order.value.timestamp != candles[j].openTime
  {
    var id := EntryWasDeferred(candles, n, t, k);
    var d, e := t.deferred[id], t.log[k];
    FillIsNext(candles, d, e.candle);
    if e.candle == j {
      SameDayBetween(candles, i, d.candle, j);
    } else if e.candle < j {
      assert candles[e.candle].openTime <= candles[e.candle].closeTime < candles[j].openTime;
    } else {
      assert candles[j].openTime <= candles[j].closeTime < candles[e.candle].openTime;
    }
  }

  /** Exactly once: every deferral has one report, and no report answers two. */
  lemma EachDeferralAnsweredOnce(candles: seq<Candle>, n: nat, t: Trace, ids: seq<nat>, id: nat)
    requires TraceOk(candles, n, t) && Listed(t, ids) && ids == [] && id < |t.deferred|
    ensures id in t.fate && FateOk(candles, t, id)
    ensures forall k :: 0 <= k < |t.log| && t.log[k].deferral == Some(id) ==> k == t.fate[id]
  {
    assert id !in ids;
    forall k | 0 <= k < |t.log| && t.log[k].deferral == Some(id) ensures k == t.fate[id] { assert EntryOk(t, k); }
  }

  /** On separate candles nothing looks ahead: a filled decision is executed after its generating candle closed. */
  lemma NoLookAhead(candles: seq<Candle>, n: nat, t: Trace, id: nat)
    requires TraceOk(candles, n, t) && Separate(candles) && id in t.fate && id < |t.deferred| && t.fate[id] < |t.log|
    ensures var d, e := t.deferred[id], t.log[t.fate[id]];
      if d.candle + 1 < |candles| then
        && e.candle == d.candle + 1 && candles[d.candle].closeTime < candles[e.candle].openTime
        && e.call.turn == e.candle
        && e.call.event == Decided(d.decision, Some(candles[e.candle].open), candles[e.candle].openTime)
      else e.call.turn == |candles| && !e.report.accepted
  {
    assert FateOk(candles, t, id);
    var d, e := t.deferred[id], t.log[t.fate[id]];
    assert DeferralOk(candles, t, id);
    if FilledAtNextOpen(candles, d, e) {
      FillIsNext(candles, d, e.candle);
    } else {
      FillIsNext(candles, d, |candles|);
    }
  }

  // ------------------------------------------------------------------ the trade list and the account

  function NetSum(trades: seq<Trade>): real
  {
    if trades == [] then 0.0 else NetSum(trades[..|trades| - 1]) + trades[|trades| - 1].netPnl
  }

  lemma NetSumSnoc(trades: seq<Trade>, t: Trade)
    ensures NetSum(trades + [t]) == NetSum(trades) + t.netPnl
  {
    assert (trades + [t])[..|trades|] == trades;
  }

  /** The engine's own books agree with the broker's account. */
  ghost predicate BooksAgree(trades: seq<Trade>, legs: map<string, real>, daily: map<int, real>, a: Account)
  {
    && NetSum(trades) == a.realizedPnl - a.feesPaid + Sum(legs)
    && Sum(daily) == a.realizedPnl - a.feesPaid - a.fundingPaid
    && legs.Keys <= a.positions.Keys
  }

  function AddTo<K>(m: map<K, real>, k: K, x: real): map<K, real> { m[k := At(m, k) + x] }

  lemma SumAddTo<K(!new)>(m: map<K, real>, k: K, x: real)
    ensures Sum(AddTo(m, k, x)) == Sum(m) + x
    ensures forall j :: At(AddTo(m, k, x), j) == At(m, j) + (if j == k then x else 0.0)
  {
    SumSet(m, k, At(m, k) + x);
  }

  /** What the fills of one day came to. */
  function DayResult(fills: seq<Fill>, day: int): real
  {
    if fills == [] then 0.0
    else
      var f := fills[|fills| - 1];
      DayResult(fills[..|fills| - 1], day) + (if Day(f.timestamp) == day then f.realizedPnl - f.fee else 0.0)
  }

  lemma DayResultSnoc(fills: seq<Fill>, f: Fill, day: int)
    ensures DayResult(fills + [f], day) == DayResult(fills, day)
      + (if Day(f.timestamp) == day then f.realizedPnl - f.fee else 0.0)
  {
    assert (fills + [f])[..|fills|] == fills;
  }

  /** Each day's entry is that day's fills less that day's funding. */
  ghost predicate DaysAgree(daily: map<int, real>, fundedOn: map<int, real>, fills: seq<Fill>)
  {
    forall day :: DayAgrees(daily, fundedOn, fills, day)
  }

  ghost predicate DayAgrees(daily: map<int, real>, fundedOn: map<int, real>, fills: seq<Fill>, day: int)
  {
    At(daily, day) == DayResult(fills, day) - At(fundedOn, day)
  }

  /** A trade's gross profit is its price move, its net profit the gross less the fees. */
  ghost predicate Honest(cfg: BrokerConfig, t: Trade)
  {
    && t.grossPnl == (if t.direction.Long? then t.quantity * (t.exitPrice - t.entryPrice) * cfg.unit * cfg.rate
                      else t.quantity * (t.entryPrice - t.exitPrice) * cfg.unit * cfg.rate)
    && t.netPnl == t.grossPnl - t.fees
  }

  /** When the account is flat, its equity is the trade list's and the day list's. */
  lemma FlatBooks(cfg: BrokerConfig, trades: seq<Trade>, legs: map<string, real>, daily: map<int, real>, a: Account)
    requires BooksAgree(trades, legs, daily, a) && a.positions == map[]
    ensures Equity(cfg, a) == cfg.startingEquity + NetSum(trades) - a.fundingPaid
    ensures Equity(cfg, a) == cfg.startingEquity + Sum(daily)
  {
    assert legs == map[];
    assert MarkedPnls(a.positions, a.marks) == map[];
  }
}
