/** Candles built from a stream of trades (`CandleBuilder` and `_WorkingCandle` in `app/data/candle_builder.py`). */
module CandleBuilder {
  import opened Common
  import opened Lists
  import opened Market
  import opened Sums

  datatype Tick = Tick(pair: string, price: real, quantity: real, timestamp: int)

  /** `floor_time_ms`. */
  function Bucket(timestamp: int, length: int): int
    requires length > 0
  {
    timestamp / length * length
  }

  /** Buckets are aligned, contain their timestamps, and follow their order. */
  lemma BucketContains(t: int, u: int, length: int)
    requires length > 0
    ensures Bucket(t, length) % length == 0 && Bucket(t, length) <= t < Bucket(t, length) + length
    ensures t <= u ==> Bucket(t, length) <= Bucket(u, length)
  {
    var q, r := t / length, u / length;
    assert t == q * length + t % length && u == r * length + u % length;
    Multiple(q, length);
    if q > r { NextMultiple(r, q, length); }
    if q < r { NextMultiple(q, r, length); }
  }

  lemma NextMultiple(q: int, r: int, length: int)
    requires length > 0 && q < r
    ensures q * length + length <= r * length
  {
    NonNegative(r - q - 1, length);
    assert (r - q - 1) * length == r * length - q * length - length;
  }

  lemma NonNegative(x: nat, y: nat)
    ensures x * y >= 0
  {
  }

  lemma Multiple(q: int, length: int)
    requires length > 0
    ensures (q * length) % length == 0
  {
    var m, p := (q * length) % length, (q * length) / length;
    assert q * length == p * length + m;
    if q > p { NextMultiple(p, q, length); }
    if q < p { NextMultiple(q, p, length); }
  }

  // ------------------------------------------------------------------ one candle, as a batch

  function MaxPrice(ts: seq<Tick>): real
    requires ts != []
  {
    if |ts| == 1 then ts[0].price else Max(MaxPrice(ts[..|ts| - 1]), ts[|ts| - 1].price)
  }

  function MinPrice(ts: seq<Tick>): real
    requires ts != []
  {
    if |ts| == 1 then ts[0].price else Min(MinPrice(ts[..|ts| - 1]), ts[|ts| - 1].price)
  }

  function Volume(ts: seq<Tick>): real { if ts == [] then 0.0 else Volume(ts[..|ts| - 1]) + ts[|ts| - 1].quantity }

  function QuoteVolume(ts: seq<Tick>): real
  {
    if ts == [] then 0.0 else QuoteVolume(ts[..|ts| - 1]) + ts[|ts| - 1].price * ts[|ts| - 1].quantity
  }

  /** First, highest, lowest and last price, and the sums, of the trades of one candle. */
  function Aggregate(ts: seq<Tick>, interval: string, length: int): Candle
    requires ts != [] && length > 0
  {
    var start := Bucket(ts[0].timestamp, length);
    Candle(ts[0].pair, interval, start, start + length - 1, ts[0].price, MaxPrice(ts), MinPrice(ts), ts[|ts| - 1].price,
           Volume(ts), QuoteVolume(ts), |ts|, true)
  }

  lemma SingleTrade(t: Tick)
    ensures Volume([t]) == t.quantity && QuoteVolume([t]) == t.price * t.quantity
  {
    assert [t][..0] == [];
  }

  /** High and low bound every trade and are trades; so the candle is well formed. */
  lemma {:induction false} AggregateBounds(ts: seq<Tick>, interval: string, length: int)
    requires ts != [] && length > 0
    ensures var c := Aggregate(ts, interval, length);
      && (forall t :: t in ts ==> c.low <= t.price <= c.high)
      && (exists t :: t in ts && t.price == c.low) && (exists t :: t in ts && t.price == c.high)
      && c.WellFormed()
  {
    var last := ts[|ts| - 1];
    assert last in ts && ts[0] in ts;
    if |ts| > 1 {
      var init := ts[..|ts| - 1];
      AggregateBounds(init, interval, length);
      assert ts == init + [last];
      var lo :| lo in init && lo.price == MinPrice(init);
      var hi :| hi in init && hi.price == MaxPrice(init);
      assert lo in ts && hi in ts;
    } else {
      assert ts == [last];
    }
  }

  function Quantities(ts: seq<Tick>): seq<real> { seq(|ts|, i requires 0 <= i < |ts| => ts[i].quantity) }

  function Quotes(ts: seq<Tick>): seq<real>
  {
    seq(|ts|, i requires 0 <= i < |ts| => Times(ts[i].price, ts[i].quantity))
  }

  /** It opens with the first trade and closes with the last, covers their bucket, and adds their amounts. */
  lemma AggregateTells(ts: seq<Tick>, interval: string, length: int)
    requires ts != [] && length > 0
      && forall t :: t in ts ==> Bucket(t.timestamp, length) == Bucket(ts[0].timestamp, length)
    ensures var c := Aggregate(ts, interval, length);
      && c.open == ts[0].price && c.close == ts[|ts| - 1].price && c.tradeCount == |ts|
      && c.pair == ts[0].pair && c.interval == interval && c.isClosed
      && (forall t :: t in ts ==> c.openTime <= t.timestamp <= c.closeTime) && c.closeTime - c.openTime == length - 1
      && c.volume == SumSeq(Quantities(ts)) && c.quoteVolume == SumSeq(Quotes(ts))
  {
    VolumesAdd(ts);
    forall t | t in ts ensures Bucket(t.timestamp, length) <= t.timestamp < Bucket(t.timestamp, length) + length {
      BucketContains(t.timestamp, t.timestamp, length);
    }
  }

  lemma {:induction false} VolumesAdd(ts: seq<Tick>)
    ensures Volume(ts) == SumSeq(Quantities(ts)) && QuoteVolume(ts) == SumSeq(Quotes(ts))
  {
    if ts != [] {
      var n := |ts| - 1;
      VolumesAdd(ts[..n]);
      assert Quantities(ts)[..n] == Quantities(ts[..n]);
      assert Quotes(ts)[..n] == Quotes(ts[..n]);
    }
  }

  // ------------------------------------------------------------------ the whole stream

  /** Finished candles' trades, oldest first, and the trades of the open candle (none when it is empty). */
  datatype Groups = Groups(closed: seq<seq<Tick>>, open: seq<Tick>)

  function Place(g: Groups, t: Tick, pair: string, length: int): Groups
    requires length > 0
  {
    if t.pair != pair then g
    else if g.open == [] then g.(open := [t])
    else
      var now, current := Bucket(t.timestamp, length), Bucket(g.open[0].timestamp, length);
      if now == current then g.(open := g.open + [t])
      else if now < current then g
      else Groups(g.closed + [g.open], [t])
  }

  function GroupsOf(ts: seq<Tick>, pair: string, length: int): Groups
    requires length > 0
  {
    if ts == [] then Groups([], []) else Place(GroupsOf(ts[..|ts| - 1], pair, length), ts[|ts| - 1], pair, length)
  }

  lemma GroupsSnoc(ts: seq<Tick>, t: Tick, pair: string, length: int)
    requires length > 0
    ensures GroupsOf(ts + [t], pair, length) == Place(GroupsOf(ts, pair, length), t, pair, length)
  {
    assert (ts + [t])[..|ts|] == ts;
  }

  function All(g: Groups): seq<seq<Tick>> { if g.open == [] then g.closed else g.closed + [g.open] }

  /** The trade opens a later bucket than the first trade of a group. */
  predicate Later(g: seq<Tick>, t: Tick, length: int)
    requires length > 0 && g != []
  {
    Bucket(g[0].timestamp, length) < Bucket(t.timestamp, length)
  }

  ghost predicate InOneBucket(g: seq<Tick>, pair: string, length: int)
    requires length > 0
  {
    g != [] && forall t :: t in g ==> t.pair == pair && Bucket(t.timestamp, length) == Bucket(g[0].timestamp, length)
  }

  /** Groups of one pair, each within one bucket, in strictly increasing order of buckets. */
  ghost predicate Increasing(gs: seq<seq<Tick>>, pair: string, length: int)
    requires length > 0
  {
    && (forall k :: 0 <= k < |gs| ==> InOneBucket(gs[k], pair, length))
    && (forall i, j :: 0 <= i < j < |gs| ==> Later(gs[i], gs[j][0], length))
  }

  lemma IncreasingSnoc(gs: seq<seq<Tick>>, g: seq<Tick>, pair: string, length: int)
    requires length > 0 && Increasing(gs, pair, length) && InOneBucket(g, pair, length)
    requires gs != [] ==> Later(gs[|gs| - 1], g[0], length)
    ensures Increasing(gs + [g], pair, length)
  {
    var more := gs + [g];
    forall k | 0 <= k < |more| ensures InOneBucket(more[k], pair, length) { }
    forall i, j | 0 <= i < j < |more| ensures Later(more[i], more[j][0], length) {
      if j == |gs| && i < |gs| - 1 { assert Later(gs[i], gs[|gs| - 1][0], length); }
    }
  }

  lemma IncreasingPrefix(gs: seq<seq<Tick>>, n: nat, pair: string, length: int)
    requires length > 0 && Increasing(gs, pair, length) && n <= |gs|
    ensures Increasing(gs[..n], pair, length)
  {
  }

  /** Groups never mix buckets, and their buckets strictly increase, whatever the order of the trades. */
  lemma {:induction false} BucketsIncrease(ts: seq<Tick>, pair: string, length: int)
    requires length > 0
    ensures var g := GroupsOf(ts, pair, length); (g.open == [] ==> g.closed == []) && Increasing(All(g), pair, length)
  {
    if ts != [] {
      var t, g := ts[|ts| - 1], GroupsOf(ts[..|ts| - 1], pair, length);
      BucketsIncrease(ts[..|ts| - 1], pair, length);
      PlaceIncreasing(g, t, pair, length);
    }
  }

  lemma PlaceIncreasing(g: Groups, t: Tick, pair: string, length: int)
    requires length > 0 && (g.open == [] ==> g.closed == []) && Increasing(All(g), pair, length)
    ensures Increasing(All(Place(g, t, pair, length)), pair, length)
  {
    var h := Place(g, t, pair, length);
    if g.open == [] {
      if h.open != [] {
        assert InOneBucket([t], pair, length);
        IncreasingSnoc([], [t], pair, length);
      }
    } else if h != g {
      assert All(g)[|g.closed|] == g.open;
      if h.closed == g.closed {
        IncreasingPrefix(All(g), |g.closed|, pair, length);
        assert All(g)[..|g.closed|] == g.closed;
        assert InOneBucket(g.open, pair, length) && InOneBucket(h.open, pair, length);
        if g.closed != [] { assert Later(All(g)[|g.closed| - 1], All(g)[|g.closed|][0], length); }
        IncreasingSnoc(g.closed, h.open, pair, length);
      } else {
        assert InOneBucket([t], pair, length);
        IncreasingSnoc(All(g), [t], pair, length);
      }
    }
  }

  /** After `CloseCurrent` buckets go on increasing exactly when the next trade of the pair opens a later one. */
  lemma IncreasingAcrossClose(ts: seq<Tick>, more: seq<Tick>, pair: string, length: int)
    requires length > 0
    ensures var g, h := GroupsOf(ts, pair, length), GroupsOf(more, pair, length);
      Increasing(All(g) + All(h), pair, length) <==>
        (g.open == [] || h.open == [] || (All(h)[0] != [] && Later(g.open, All(h)[0][0], length)))
  {
    BucketsIncrease(ts, pair, length);
    BucketsIncrease(more, pair, length);
    var g, h := GroupsOf(ts, pair, length), GroupsOf(more, pair, length);
    var x, y := All(g), All(h);
    if x == [] || y == [] {
      assert x + y == x || x + y == y;
    } else {
      assert x[|x| - 1] == g.open;
      if Later(g.open, y[0][0], length) {
        JoinIncreasing(x, y, |y|, pair, length);
        assert y[..|y|] == y;
      } else {
        assert (x + y)[|x| - 1] == g.open && (x + y)[|x|] == y[0];
      }
    }
  }

  lemma {:induction false} JoinIncreasing(x: seq<seq<Tick>>, y: seq<seq<Tick>>, n: nat, pair: string, length: int)
    requires length > 0 && Increasing(x, pair, length) && Increasing(y, pair, length) && x != [] && n <= |y|
    requires y != [] ==> Later(x[|x| - 1], y[0][0], length)
    ensures Increasing(x + y[..n], pair, length)
  {
    if n == 0 {
      assert x + y[..0] == x;
    } else {
      JoinIncreasing(x, y, n - 1, pair, length);
      assert InOneBucket(y[n - 1], pair, length);
      if n > 1 { assert Later(y[n - 2], y[n - 1][0], length); }
      IncreasingSnoc(x + y[..n - 1], y[n - 1], pair, length);
      assert x + y[..n - 1] + [y[n - 1]] == x + y[..n];
    }
  }

  function Flatten(gs: seq<seq<Tick>>): seq<Tick> { if gs == [] then [] else Flatten(gs[..|gs| - 1]) + gs[|gs| - 1] }

  lemma FlattenSnoc(gs: seq<seq<Tick>>, g: seq<Tick>)
    ensures Flatten(gs + [g]) == Flatten(gs) + g
  {
    assert (gs + [g])[..|gs|] == gs;
  }

  function HasPair(pair: string): Tick -> bool { (t: Tick) => t.pair == pair }

  function OfPair(ts: seq<Tick>, pair: string): seq<Tick> { Keep(ts, HasPair(pair)) }

  /** Whether a trade belongs to a pair's bucket. */
  function Belongs(pair: string, length: int, bucket: int): Tick -> bool
    requires length > 0
  {
    (t: Tick) => t.pair == pair && Bucket(t.timestamp, length) == bucket
  }

  /** The trades of one pair in one bucket: what a group-by collects. */
  function InBucket(ts: seq<Tick>, pair: string, length: int, bucket: int): seq<Tick>
    requires length > 0
  {
    Keep(ts, Belongs(pair, length, bucket))
  }

  /** A trade of the pair is late when an earlier one opened a later bucket. */
  ghost predicate Late(before: seq<Tick>, t: Tick, pair: string, length: int)
    requires length > 0
  {
    exists u :: u in before && u.pair == pair && Bucket(u.timestamp, length) > Bucket(t.timestamp, length)
  }

  /** The trades of one pair that are not late. */
  ghost function Accepted(ts: seq<Tick>, pair: string, length: int): seq<Tick>
    requires length > 0
  {
    if ts == [] then []
    else
      var before, t := ts[..|ts| - 1], ts[|ts| - 1];
      Accepted(before, pair, length) + (if t.pair == pair && !Late(before, t, pair, length) then [t] else [])
  }

  /** The open group holds the latest bucket seen. */
  lemma {:induction false} OpenIsLatest(ts: seq<Tick>, pair: string, length: int)
    requires length > 0
    ensures var g := GroupsOf(ts, pair, length);
      if g.open == [] then forall t :: t in ts ==> t.pair != pair
      else (exists t :: t in ts && t.pair == pair && Bucket(g.open[0].timestamp, length) == Bucket(t.timestamp, length))
           && forall t :: t in ts && t.pair == pair ==> Bucket(t.timestamp, length) <= Bucket(g.open[0].timestamp,
               length)
  {
    if ts != [] {
      var init, t := ts[..|ts| - 1], ts[|ts| - 1];
      OpenIsLatest(init, pair, length);
      assert ts == init + [t];
    }
  }

  lemma PlaceKeeps(g: Groups, t: Tick, pair: string, length: int)
    requires length > 0 && t.pair == pair
    requires g.open != [] ==> Bucket(g.open[0].timestamp, length) <= Bucket(t.timestamp, length)
    ensures Flatten(All(Place(g, t, pair, length))) == Flatten(All(g)) + [t]
  {
    var h := Place(g, t, pair, length);
    if g.open == [] {
      FlattenSnoc(g.closed, [t]);
    } else if h.closed == g.closed {
      FlattenSnoc(g.closed, g.open + [t]);
      FlattenSnoc(g.closed, g.open);
      assert Flatten(g.closed) + (g.open + [t]) == Flatten(g.closed) + g.open + [t];
    } else {
      FlattenSnoc(g.closed + [g.open], [t]);
    }
  }

  /** For any order of trades, the groups hold exactly the trades that are not late, in order. */
  lemma {:induction false} GroupsHoldAccepted(ts: seq<Tick>, pair: string, length: int)
    requires length > 0
    ensures Flatten(All(GroupsOf(ts, pair, length))) == Accepted(ts, pair, length)
  {
    if ts != [] {
      var init, t := ts[..|ts| - 1], ts[|ts| - 1];
      GroupsHoldAccepted(init, pair, length);
      if t.pair == pair { LateIsRefused(init, t, pair, length); }
      var g := GroupsOf(init, pair, length);
      if t.pair == pair && !Late(init, t, pair, length) {
        PlaceKeeps(g, t, pair, length);
      }
    }
  }

  /** A trade is late exactly when it belongs before the open group. */
  lemma LateIsRefused(ts: seq<Tick>, t: Tick, pair: string, length: int)
    requires length > 0 && t.pair == pair
    ensures var g := GroupsOf(ts, pair, length);
      Late(ts, t, pair, length) <==>
        g.open != [] && Bucket(g.open[0].timestamp, length) > Bucket(t.timestamp, length)
  {
    OpenIsLatest(ts, pair, length);
  }

  /** A property that singles out one group picks exactly that group out of all of them. */
  lemma {:induction false} PickGroup(gs: seq<seq<Tick>>, n: nat, k: nat, keep: Tick -> bool)
    requires n <= |gs| && k < |gs|
    requires forall i, t :: 0 <= i < |gs| && t in gs[i] ==> keep(t) == (i == k)
    ensures Keep(Flatten(gs[..n]), keep) == if k < n then gs[k] else []
  {
    if n > 0 {
      PickGroup(gs, n - 1, k, keep);
      assert gs[..n] == gs[..n - 1] + [gs[n - 1]];
      FlattenSnoc(gs[..n - 1], gs[n - 1]);
      KeepAppend(Flatten(gs[..n - 1]), gs[n - 1], keep);
      KeepAllOrNone(gs[n - 1], keep, n - 1 == k);
    }
  }

  /** In increasing groups a bucket singles out its group. */
  lemma BucketSinglesOut(gs: seq<seq<Tick>>, k: nat, i: nat, t: Tick, pair: string, length: int)
    requires length > 0 && Increasing(gs, pair, length) && k < |gs| && i < |gs| && t in gs[i]
    ensures gs[k] != [] && Belongs(pair, length, Bucket(gs[k][0].timestamp, length))(t) == (i == k)
  {
    assert InOneBucket(gs[i], pair, length) && InOneBucket(gs[k], pair, length);
    if i < k { assert Later(gs[i], gs[k][0], length); }
    if k < i { assert Later(gs[k], gs[i][0], length); }
  }

  /** For any order of trades, each candle is everything its bucket has among the trades that are not late. */
  lemma StreamIsGroupBy(ts: seq<Tick>, pair: string, length: int, k: nat)
    requires length > 0 && k < |All(GroupsOf(ts, pair, length))|
    ensures var group := All(GroupsOf(ts, pair, length))[k];
      group != [] && group == InBucket(Accepted(ts, pair, length), pair, length, Bucket(group[0].timestamp, length))
  {
    var gs := All(GroupsOf(ts, pair, length));
    BucketsIncrease(ts, pair, length);
    assert InOneBucket(gs[k], pair, length);
    forall i, t | 0 <= i < |gs| && t in gs[i]
      ensures Belongs(pair, length, Bucket(gs[k][0].timestamp, length))(t) == (i == k)
    {
      BucketSinglesOut(gs, k, i, t, pair, length);
    }
    PickGroup(gs, |gs|, k, Belongs(pair, length, Bucket(gs[k][0].timestamp, length)));
    assert gs[..|gs|] == gs;
    GroupsHoldAccepted(ts, pair, length);
  }

  ghost predicate TimeOrdered(ts: seq<Tick>) { forall i, j :: 0 <= i < j < |ts| ==> ts[i].timestamp <= ts[j].timestamp }

  /** On a time-ordered stream no trade is late. */
  lemma {:induction false} NothingLate(ts: seq<Tick>, pair: string, length: int)
    requires length > 0 && TimeOrdered(ts)
    ensures Accepted(ts, pair, length) == OfPair(ts, pair)
  {
    if ts != [] {
      var init, t := ts[..|ts| - 1], ts[|ts| - 1];
      NothingLate(init, pair, length);
      forall u | u in init ensures Bucket(u.timestamp, length) <= Bucket(t.timestamp, length) {
        var i :| 0 <= i < |init| && init[i] == u;
        assert ts[i] == u;
        BucketContains(u.timestamp, t.timestamp, length);
      }
    }
  }

  /** So a time-ordered stream is kept whole, and is the full group-by of the pair's trades. */
  lemma OrderedStreamIsGroupBy(ts: seq<Tick>, pair: string, length: int)
    requires length > 0 && TimeOrdered(ts)
    ensures var gs := All(GroupsOf(ts, pair, length));
      && Flatten(gs) == OfPair(ts, pair)
      && forall k :: 0 <= k < |gs| ==>
         gs[k] != [] && gs[k] == InBucket(ts, pair, length, Bucket(gs[k][0].timestamp, length))
  {
    var gs: seq<seq<Tick>> := All(GroupsOf(ts, pair, length));
    NothingLate(ts, pair, length);
    GroupsHoldAccepted(ts, pair, length);
    forall k | 0 <= k < |gs| ensures gs[k] != [] && gs[k] == InBucket(ts, pair, length,
                                                                      Bucket(gs[k][0].timestamp, length)) {
      StreamIsGroupBy(ts, pair, length, k);
      KeepTwice(ts, HasPair(pair), Belongs(pair, length, Bucket(gs[k][0].timestamp, length)));
    }
  }

  lemma {:induction false} VolumeAppend(x: seq<Tick>, y: seq<Tick>)
    ensures Volume(x + y) == Volume(x) + Volume(y)
  {
    if y == [] {
      assert x + y == x;
    } else {
      assert (x + y)[..|x + y| - 1] == x + y[..|y| - 1];
      VolumeAppend(x, y[..|y| - 1]);
    }
  }

  predicate Filled(gs: seq<seq<Tick>>) { forall k :: 0 <= k < |gs| ==> gs[k] != [] }

  function Candles(gs: seq<seq<Tick>>, interval: string, length: int): seq<Candle>
    requires length > 0 && Filled(gs)
  {
    if gs == [] then [] else Candles(gs[..|gs| - 1], interval, length) + [Aggregate(gs[|gs| - 1], interval, length)]
  }

  function TotalVolume(cs: seq<Candle>): real
  {
    if cs == [] then 0.0 else TotalVolume(cs[..|cs| - 1]) + cs[|cs| - 1].volume
  }

  /** The candles carry exactly the volume of the trades grouped into them. */
  lemma {:induction false} VolumeConserved(gs: seq<seq<Tick>>, interval: string, length: int)
    requires length > 0 && Filled(gs)
    ensures TotalVolume(Candles(gs, interval, length)) == Volume(Flatten(gs))
  {
    if gs != [] {
      var init := gs[..|gs| - 1];
      VolumeConserved(init, interval, length);
      VolumeAppend(Flatten(init), gs[|gs| - 1]);
      var cs := Candles(init, interval, length);
      assert (cs + [Aggregate(gs[|gs| - 1], interval, length)])[..|cs|] == cs;
    }
  }

  /** The finished candles and the open one carry the volume of every trade that is not late. */
  lemma StreamVolume(ts: seq<Tick>, pair: string, interval: string, length: int)
    requires length > 0 && Filled(GroupsOf(ts, pair, length).closed)
    ensures var g := GroupsOf(ts, pair, length);
      TotalVolume(Candles(g.closed, interval, length)) + Volume(g.open) == Volume(Accepted(ts, pair, length))
  {
    var g := GroupsOf(ts, pair, length);
    BucketsIncrease(ts, pair, length);
    GroupsHoldAccepted(ts, pair, length);
    VolumeConserved(g.closed, interval, length);
    FlattenSnoc(g.closed, g.open);
    VolumeAppend(Flatten(g.closed), g.open);
  }

  // ------------------------------------------------------------------ the objects

  class WorkingCandle {
    const pair: string
    const interval: string
    const length: int
    const openTime: int
    const closeTime: int
    const open: real
    var high: real
    var low: real
    var close: real
    var volume: real
    var quoteVolume: real
    var tradeCount: int

    /** The trades applied so far. */
    ghost var ticks: seq<Tick>

    ghost predicate Valid()
      reads this
    {
      length > 0 && ticks != [] && Freeze() == Aggregate(ticks, interval, length)
    }

    constructor (t: Tick, interval: string, length: int)
      requires length > 0
      ensures Valid() && ticks == [t] && this.interval == interval && this.length == length && fresh(this)
    {
      pair, this.interval, this.length := t.pair, interval, length;
      openTime, closeTime := Bucket(t.timestamp, length), Bucket(t.timestamp, length) + length - 1;
      open, high, low, close := t.price, t.price, t.price, t.price;
      volume, quoteVolume, tradeCount := t.quantity, t.price * t.quantity, 1;
      ticks := [t];
      SingleTrade(t);
    }

    method ApplyTrade(t: Tick)
      requires Valid()
      modifies this
      ensures Valid() && ticks == old(ticks) + [t]
    {
      high := Max(high, t.price);
      low := Min(low, t.price);
      close := t.price;
      volume := volume + t.quantity;
      quoteVolume := quoteVolume + t.price * t.quantity;
      tradeCount := tradeCount + 1;
      ticks := ticks + [t];
      assert ticks[..|ticks| - 1] == old(ticks);
    }

    function Freeze(): Candle
      reads this
    {
      Candle(pair, interval, openTime, closeTime, open, high, low, close, volume, quoteVolume, tradeCount, true)
    }
  }

  class CandleBuilder {
    const pair: string
    const interval: string
    const length: int
    var current: WorkingCandle?

    /** The trades received since the last `CloseCurrent`, and the candles returned for them. */
    ghost var received: seq<Tick>
    ghost var emitted: seq<Candle>

    /** What was returned is the finished groups' candles, and the working candle holds the open group. */
    ghost predicate Valid()
      reads this, current
    {
      && length > 0
      && (current != null ==> current.Valid() && current.interval == interval && current.length == length)
      && var g := GroupsOf(received, pair, length);
      && g.open == (if current == null then [] else current.ticks)
      && Filled(g.closed) && emitted == Candles(g.closed, interval, length)
    }

    constructor (pair: string, interval: string, length: int)
      requires length > 0
      ensures Valid() && received == [] && emitted == []
      ensures this.pair == pair && this.interval == interval && this.length == length
    {
      this.pair, this.interval, this.length := pair, interval, length;
      current, received, emitted := null, [], [];
    }

    /** Returns the candle a trade finishes, if any; late trades and other pairs' trades are ignored. */
    method UpdateTrade(t: Tick) returns (closed: seq<Candle>)
      requires Valid()
      modifies this, current
      ensures Valid() && received == old(received) + [t] && emitted == old(emitted) + closed
      ensures current != old(current) ==> fresh(current)
    {
      closed := [];
      ghost var g := GroupsOf(received, pair, length);
      GroupsSnoc(received, t, pair, length);
      received := received + [t];
      if t.pair != pair {
        return;
      }
      var bucket := Bucket(t.timestamp, length);
      if current == null {
        current := new WorkingCandle(t, interval, length);
      } else if bucket == current.openTime {
        current.ApplyTrade(t);
      } else if bucket > current.openTime {
        closed := [current.Freeze()];
        assert (g.closed + [g.open])[..|g.closed|] == g.closed;
        emitted := emitted + closed;
        current := new WorkingCandle(t, interval, length);
      }
    }

    /** Returns the unfinished candle and starts over. */
    method CloseCurrent() returns (closed: Option<Candle>)
      requires Valid()
      modifies this
      ensures Valid() && received == [] && emitted == []
      ensures var g := GroupsOf(old(received), pair, length);
        closed == if g.open == [] then None else Some(Aggregate(g.open, interval, length))
    {
      closed := if current == null then None else Some(current.Freeze());
      current, received, emitted := null, [], [];
    }
  }
}
