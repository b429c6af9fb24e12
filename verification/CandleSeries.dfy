/** The bounded, sorted candle cache (`CandleSeries` in `app/data/candle_builder.py`). */
module CandleSeries {
  import opened Common
  import opened Market
  import Sorting

  /** What makes two candles the same one: pair, interval and opening time. */
  datatype Id = Id(pair: string, interval: string, openTime: int)

  function IdOf(c: Candle): Id { Id(c.pair, c.interval, c.openTime) }

  /** The sort key. */
  function OpenTime(c: Candle): real { c.openTime as real }

  /** The dictionary in which the last candle written under an identity wins. */
  function Latest(added: seq<Candle>): map<Id, Candle>
  {
    if added == [] then map[] else Latest(added[..|added| - 1])[IdOf(added[|added| - 1]) := added[|added| - 1]]
  }

  ghost predicate Distinct(s: seq<Candle>) { forall i, j :: 0 <= i < j < |s| ==> IdOf(s[i]) != IdOf(s[j]) }

  ghost function Ids(s: seq<Candle>): set<Id> { set c | c in s :: IdOf(c) }

  /** The dictionary's entry under its identity. */
  ghost predicate Current(all: map<Id, Candle>, c: Candle) { IdOf(c) in all && all[IdOf(c)] == c }

  ghost predicate AllCurrent(s: seq<Candle>, all: map<Id, Candle>) { forall c :: c in s ==> Current(all, c) }

  ghost predicate NotNewer(id: Id, s: seq<Candle>) { forall c :: c in s ==> id.openTime <= c.openTime }

  /** Cached, or no newer than anything cached. */
  ghost predicate Settled(s: seq<Candle>, id: Id) { id in Ids(s) || NotNewer(id, s) }

  ghost predicate AllSettled(s: seq<Candle>, all: map<Id, Candle>)
  {
    forall id {:trigger Settled(s, id)} :: id in all ==> Settled(s, id)
  }

  ghost predicate Full(s: seq<Candle>, maxlen: nat, all: map<Id, Candle>)
  {
    |s| == if |all| < maxlen then |all| else maxlen
  }

  /** A cache of the newest `maxlen` entries of a dictionary, in order of opening time. */
  ghost predicate Caches(s: seq<Candle>, maxlen: nat, all: map<Id, Candle>)
  {
    Ordered(s) && Distinct(s) && Full(s, maxlen, all) && AllCurrent(s, all) && AllSettled(s, all)
  }

  // ------------------------------------------------------------------ sequences without repetition

  lemma {:induction false} DistinctIds(s: seq<Candle>)
    requires Distinct(s)
    ensures |Ids(s)| == |s|
  {
    if s != [] {
      var init, last := s[..|s| - 1], s[|s| - 1];
      DistinctIds(init);
      assert Ids(s) == Ids(init) + {IdOf(last)};
      assert IdOf(last) !in Ids(init);
    }
  }

  lemma {:induction false} IdsBound(s: seq<Candle>)
    ensures |Ids(s)| <= |s|
  {
    if s != [] {
      IdsBound(s[..|s| - 1]);
      assert Ids(s) == Ids(s[..|s| - 1]) + {IdOf(s[|s| - 1])};
    }
  }

  /** As many identities as entries: no identity occurs twice. */
  lemma {:induction false} IdsDistinct(s: seq<Candle>)
    requires |Ids(s)| == |s|
    ensures Distinct(s)
  {
    if s != [] {
      var init, last := s[..|s| - 1], s[|s| - 1];
      assert Ids(s) == Ids(init) + {IdOf(last)};
      IdsBound(init);
      IdsDistinct(init);
    }
  }

  lemma SameEntries(s: seq<Candle>, t: seq<Candle>)
    requires |s| == |t| && forall c :: c in s <==> c in t
    ensures Ids(s) == Ids(t)
    ensures Distinct(s) ==> Distinct(t)
  {
    assert Ids(s) == Ids(t);
    if Distinct(s) {
      DistinctIds(s);
      IdsDistinct(t);
    }
  }

  // ------------------------------------------------------------------ one addition

  /** Replace the entry of that identity, or append. */
  ghost predicate Upserted(s: seq<Candle>, c: Candle, t: seq<Candle>)
  {
    && Distinct(t) && (forall x :: x in t <==> x == c || (x in s && IdOf(x) != IdOf(c)))
    && |t| == |s| + (if IdOf(c) in Ids(s) then 0 else 1)
  }

  lemma Replaced(s: seq<Candle>, k: nat, c: Candle)
    requires k < |s| && Distinct(s) && IdOf(s[k]) == IdOf(c)
    ensures Upserted(s, c, s[k := c])
  {
    var t := s[k := c];
    forall x ensures x in t <==> x == c || (x in s && IdOf(x) != IdOf(c)) {
      if x in t && x != c {
        var i :| 0 <= i < |t| && t[i] == x;
        assert s[i] == x;
      }
      if x == c { assert t[k] == x; }
      if x in s && IdOf(x) != IdOf(c) {
        var i :| 0 <= i < |s| && s[i] == x;
        assert t[i] == x;
      }
    }
    assert IdOf(c) in Ids(s) by { assert s[k] in s; }
  }

  lemma Appended(s: seq<Candle>, c: Candle)
    requires Distinct(s) && forall i :: 0 <= i < |s| ==> IdOf(s[i]) != IdOf(c)
    ensures Upserted(s, c, s + [c])
  {
    assert IdOf(c) !in Ids(s);
  }

  lemma IdsOfCurrent(s: seq<Candle>, all: map<Id, Candle>)
    requires AllCurrent(s, all)
    ensures Ids(s) <= all.Keys
  {
    forall id | id in Ids(s) ensures id in all {
      var c :| c in s && IdOf(c) == id;
      assert Current(all, c);
    }
  }

  lemma WrittenSize(all: map<Id, Candle>, c: Candle)
    ensures |all[IdOf(c) := c]| == |all| + (if IdOf(c) in all then 0 else 1)
  {
    var next := all[IdOf(c) := c];
    assert next.Keys == all.Keys + {IdOf(c)};
    assert |next| == |next.Keys| && |all| == |all.Keys|;
  }

  /** Only a full cache lets an entry fall out. */
  lemma FullWhenDropped(s: seq<Candle>, maxlen: nat, all: map<Id, Candle>, id: Id)
    requires Distinct(s) && Full(s, maxlen, all) && AllCurrent(s, all) && id in all && id !in Ids(s)
    ensures |s| == maxlen < |all|
  {
    DistinctIds(s);
    IdsOfCurrent(s, all);
    Smaller(Ids(s), all.Keys, id);
    assert |all| == |all.Keys|;
  }

  lemma Smaller(a: set<Id>, b: set<Id>, x: Id)
    requires a <= b && x in b && x !in a
    ensures |a| < |b|
  {
    assert a <= b - {x};
    Subset(a, b - {x});
  }

  lemma Subset(a: set<Id>, b: set<Id>)
    requires a <= b
    ensures |a| <= |b|
  {
    assert b == a + (b - a);
  }

  /** The newest `n` of a sorted list. */
  function Cut(s: seq<Candle>, n: nat): seq<Candle> { if |s| > n then s[|s| - n..] else s }

  lemma KeptIds(s: seq<Candle>, n: nat, i: nat)
    requires i < |s|
    ensures i >= |s| - |Cut(s, n)| ==> IdOf(s[i]) in Ids(Cut(s, n))
  {
    if i >= |s| - |Cut(s, n)| { assert Cut(s, n)[i - (|s| - |Cut(s, n)|)] == s[i]; }
  }

  lemma CutOrdered(s: seq<Candle>, n: nat)
    requires Ordered(s) && Distinct(s)
    ensures Ordered(Cut(s, n)) && Distinct(Cut(s, n)) && |Cut(s, n)| == if |s| < n then |s| else n
    ensures forall c :: c in Cut(s, n) ==> c in s
  {
  }

  lemma AddCurrent(s: seq<Candle>, n: nat, all: map<Id, Candle>, c: Candle, t: seq<Candle>)
    requires AllCurrent(s, all) && Upserted(s, c, t)
    ensures AllCurrent(Cut(t, n), all[IdOf(c) := c])
  {
    var next := all[IdOf(c) := c];
    forall x | x in Cut(t, n) ensures Current(next, x) {
      assert x in t;
      if x != c { assert Current(all, x); }
    }
  }

  lemma AddFull(s: seq<Candle>, n: nat, all: map<Id, Candle>, c: Candle, t: seq<Candle>)
    requires Distinct(s) && Full(s, n, all) && AllCurrent(s, all) && Upserted(s, c, t)
    ensures Full(Cut(t, n), n, all[IdOf(c) := c])
  {
    WrittenSize(all, c);
    IdsOfCurrent(s, all);
    if IdOf(c) in all && IdOf(c) !in Ids(s) { FullWhenDropped(s, n, all, IdOf(c)); }
  }

  /** The cut keeps the newest: what is cut off is no newer than what is kept. */
  lemma CutSettles(t: seq<Candle>, n: nat, id: Id)
    requires Ordered(t) && id in Ids(t)
    ensures Settled(Cut(t, n), id)
  {
    var y :| y in t && IdOf(y) == id;
    var i :| 0 <= i < |t| && t[i] == y;
    KeptIds(t, n, i);
    var kept := Cut(t, n);
    if i < |t| - |kept| {
      forall x | x in kept ensures id.openTime <= x.openTime {
        var j :| 0 <= j < |kept| && kept[j] == x;
        assert t[|t| - |kept| + j] == x;
      }
    }
  }

  lemma UpsertedIds(s: seq<Candle>, c: Candle, t: seq<Candle>, id: Id)
    requires Upserted(s, c, t)
    ensures IdOf(c) in Ids(t) && (id in Ids(s) ==> id in Ids(t))
  {
    assert c in t;
    if id in Ids(s) {
      var y :| y in s && IdOf(y) == id;
      assert IdOf(y) == IdOf(c) || y in t;
    }
  }

  /** What fell out before is no newer than anything kept now. */
  lemma StillSettled(s: seq<Candle>, n: nat, all: map<Id, Candle>, c: Candle, t: seq<Candle>, id: Id)
    requires n > 0 && Caches(s, n, all) && Upserted(s, c, t) && Ordered(t) && id in all && id !in Ids(t)
    ensures NotNewer(id, Cut(t, n))
  {
    UpsertedIds(s, c, t, id);
    assert Settled(s, id);
    FullWhenDropped(s, n, all, id);
    var kept := Cut(t, n);
    forall x | x in kept ensures id.openTime <= x.openTime {
      var j :| 0 <= j < |kept| && kept[j] == x;
      var at := |t| - |kept| + j;
      assert t[at] == x && x in t;
      if x == c && IdOf(c) in Ids(s) {
        var before :| before in s && IdOf(before) == IdOf(c);
      } else if x == c {
        assert at > 0 && t[0] in t && t[0] != c;
      }
    }
  }

  lemma AddSettled(s: seq<Candle>, n: nat, all: map<Id, Candle>, c: Candle, t: seq<Candle>)
    requires n > 0 && Caches(s, n, all) && Upserted(s, c, t) && Ordered(t)
    ensures AllSettled(Cut(t, n), all[IdOf(c) := c])
  {
    var kept, next := Cut(t, n), all[IdOf(c) := c];
    forall id | id in next ensures Settled(kept, id) {
      UpsertedIds(s, c, t, id);
      if id in Ids(t) {
        CutSettles(t, n, id);
      } else {
        StillSettled(s, n, all, c, t, id);
      }
    }
  }

  /** One `add` keeps the newest entries of the dictionary with the new candle written. */
  lemma AddCaches(s: seq<Candle>, maxlen: nat, all: map<Id, Candle>, c: Candle, sorted: seq<Candle>)
    requires maxlen > 0 && Caches(s, maxlen, all) && Upserted(s, c, sorted) && Ordered(sorted)
    ensures Caches(Cut(sorted, maxlen), maxlen, all[IdOf(c) := c])
  {
    CutOrdered(sorted, maxlen);
    AddCurrent(s, maxlen, all, c, sorted);
    AddFull(s, maxlen, all, c, sorted);
    AddSettled(s, maxlen, all, c, sorted);
  }

  // ------------------------------------------------------------------ one stream

  /** Identities of a dictionary that open later. */
  ghost function Newer(all: map<Id, Candle>, openTime: int): set<Id> { set id | id in all && id.openTime > openTime }

  ghost predicate OneStream(all: map<Id, Candle>)
  {
    forall x, y :: x in all && y in all ==> x.pair == y.pair && x.interval == y.interval
  }

  lemma StrictlyIncreasing(s: seq<Candle>, maxlen: nat, all: map<Id, Candle>)
    requires Caches(s, maxlen, all) && OneStream(all)
    ensures forall i, j :: 0 <= i < j < |s| ==> s[i].openTime < s[j].openTime
  {
    forall i, j | 0 <= i < j < |s| ensures s[i].openTime < s[j].openTime {
      assert s[i] in s && s[j] in s && IdOf(s[i]) != IdOf(s[j]);
      assert Current(all, s[i]) && Current(all, s[j]);
    }
  }

  lemma CachedIsNewest(s: seq<Candle>, maxlen: nat, all: map<Id, Candle>, c: Candle)
    requires Caches(s, maxlen, all) && c in s
    ensures |Newer(all, c.openTime)| < maxlen
  {
    DistinctIds(s);
    var newer, others := Newer(all, c.openTime), Ids(s) - {IdOf(c)};
    forall x | x in newer ensures x in others {
      assert Settled(s, x);
    }
    Subset(newer, others);
  }

  lemma DroppedIsNotNewest(s: seq<Candle>, maxlen: nat, all: map<Id, Candle>, id: Id)
    requires Caches(s, maxlen, all) && OneStream(all) && id in all && id !in Ids(s)
    ensures |Newer(all, id.openTime)| >= maxlen
  {
    DistinctIds(s);
    FullWhenDropped(s, maxlen, all, id);
    assert Settled(s, id);
    forall x | x in Ids(s) ensures x in Newer(all, id.openTime) {
      var c :| c in s && IdOf(c) == x;
      assert Current(all, c) && id.openTime <= c.openTime;
    }
    Subset(Ids(s), Newer(all, id.openTime));
  }

  /**
   * For one pair and interval the cache holds exactly the newest keys: an entry is cached
   * if and only if fewer than `maxlen` keys are newer, and the cache is strictly increasing.
   */
  lemma CachedIffNewest(s: seq<Candle>, maxlen: nat, all: map<Id, Candle>, id: Id)
    requires Caches(s, maxlen, all) && OneStream(all) && id in all
    ensures id in Ids(s) <==> |Newer(all, id.openTime)| < maxlen
    ensures forall i, j :: 0 <= i < j < |s| ==> s[i].openTime < s[j].openTime
  {
    StrictlyIncreasing(s, maxlen, all);
    if id in Ids(s) {
      var c :| c in s && IdOf(c) == id;
      CachedIsNewest(s, maxlen, all, c);
    } else {
      DroppedIsNotNewest(s, maxlen, all, id);
    }
  }

  ghost predicate Caching(candles: seq<Candle>, maxlen: nat, added: seq<Candle>)
  {
    maxlen > 0 && Caches(candles, maxlen, Latest(added))
  }

  class CandleSeries {
    const maxlen: nat
    var candles: seq<Candle>

    /** Every candle added so far. */
    ghost var added: seq<Candle>

    ghost predicate Valid()
      reads this
    {
      Caching(candles, maxlen, added)
    }

    constructor (maxlen: nat)
      requires maxlen > 0
      ensures Valid() && this.maxlen == maxlen && added == []
    {
      this.maxlen := maxlen;
      candles, added := [], [];
    }

    /** The loop and append of `add`. */
    method Upsert(c: Candle)
      requires Distinct(candles)
      modifies this`candles
      ensures Upserted(old(candles), c, candles)
    {
      var k := 0;
      while k < |candles|
        invariant 0 <= k <= |candles| && candles == old(candles)
        invariant forall i :: 0 <= i < k ==> IdOf(candles[i]) != IdOf(c)
      {
        if candles[k].pair == c.pair && candles[k].interval == c.interval && candles[k].openTime == c.openTime {
          Replaced(candles, k, c);
          candles := candles[k := c];
          return;
        }
        k := k + 1;
      }
      Appended(candles, c);
      candles := candles + [c];
    }

    /** The sort of `add`. */
    method SortByTime(ghost before: seq<Candle>, ghost c: Candle)
      requires Upserted(before, c, candles)
      modifies this`candles
      ensures Upserted(before, c, candles) && Ordered(candles)
    {
      SortsUpserted(before, c, candles);
      candles := Sorting.Sort(candles, OpenTime);
    }

    /** The truncation of `add`. */
    method Truncate(ghost before: seq<Candle>, ghost all: map<Id, Candle>, ghost c: Candle)
      requires maxlen > 0 && Caches(before, maxlen, all) && Upserted(before, c, candles) && Ordered(candles)
      modifies this`candles
      ensures Caches(candles, maxlen, all[IdOf(c) := c])
    {
      AddCaches(before, maxlen, all, c, candles);
      if |candles| > maxlen {
        candles := candles[|candles| - maxlen..];
      }
    }

    /**
     * Whatever the order of additions, the cache holds the newest entries of all that was ever added, last writer
     * wins.
     */
    method Add(c: Candle)
      requires Valid()
      modifies this
      ensures Valid() && added == old(added) + [c]
    {
      ghost var before, all := candles, Latest(added);
      Upsert(c);
      SortByTime(before, c);
      Truncate(before, all, c);
      LatestSnoc(added, c);
      added := added + [c];
    }

    method Extend(more: seq<Candle>)
      requires Valid()
      modifies this
      ensures Valid() && added == old(added) + more
    {
      ghost var start := added;
      assert start + more[..0] == start;
      for i := 0 to |more|
        invariant Valid() && added == start + more[..i]
      {
        Add(more[i]);
        assert start + more[..i] + [more[i]] == start + more[..i + 1];
      }
      assert more[..|more|] == more;
    }
  }

  lemma LatestSnoc(added: seq<Candle>, c: Candle)
    ensures Latest(added + [c]) == Latest(added)[IdOf(c) := c]
  {
    assert (added + [c])[..|added|] == added;
  }

  lemma SortsUpserted(s: seq<Candle>, c: Candle, t: seq<Candle>)
    requires Upserted(s, c, t)
    ensures Upserted(s, c, Sorting.Sort(t, OpenTime)) && Ordered(Sorting.Sort(t, OpenTime))
  {
    Sorting.SortSorts(t, OpenTime);
    Sorting.SortEntries(t, OpenTime);
    SameEntries(t, Sorting.Sort(t, OpenTime));
  }
}
