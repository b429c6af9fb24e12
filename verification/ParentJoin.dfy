/** Assigning execution candles to strategy candles with two pointers (`_execution_candles_by_parent`). */
module ParentJoin {
  import opened Lists
  import opened Market

  predicate Inside(child: Candle, parent: Candle) { parent.openTime <= child.openTime <= parent.closeTime }

  /** The first parent that has not closed before a time; the number of parents if all have. */
  function FirstOpen(parents: seq<Candle>, time: int): (k: nat)
    ensures k <= |parents| && Passed(parents, k, time) && (k < |parents| ==> time <= parents[k].closeTime)
  {
    if parents == [] || time <= parents[0].closeTime then 0
    else
      var k := FirstOpen(parents[1..], time);
      assert forall i :: 0 < i < k + 1 ==> parents[i] == parents[1..][i - 1];
      k + 1
  }

  /** Every parent before the pointer closes before this time. */
  ghost predicate Passed(parents: seq<Candle>, at: nat, time: int)
    requires at <= |parents|
  {
    forall k :: 0 <= k < at ==> parents[k].closeTime < time
  }

  lemma FirstOpenIs(parents: seq<Candle>, at: nat, time: int)
    requires at <= |parents| && Passed(parents, at, time) && (at < |parents| ==> time <= parents[at].closeTime)
    ensures FirstOpen(parents, time) == at
  {
  }

  /** The child opens inside the first parent still open then, and that parent opened at `key`. */
  function Goes(parents: seq<Candle>, key: int): Candle -> bool
  {
    (child: Candle) =>
      var k := FirstOpen(parents, child.openTime);
      k < |parents| && parents[k].openTime == key && Inside(child, parents[k])
  }

  /** The groups hold what the first `n` children contribute. */
  ghost predicate Grouped(grouped: map<int, seq<Candle>>, parents: seq<Candle>, children: seq<Candle>, n: nat)
    requires n <= |children|
  {
    && grouped.Keys == (set p | p in parents :: p.openTime)
    && forall key {:trigger GroupIs(grouped, parents, children, n, key)} :: key in grouped ==>
       GroupIs(grouped, parents, children, n, key)
  }

  ghost predicate GroupIs(grouped: map<int, seq<Candle>>, parents: seq<Candle>, children: seq<Candle>, n: nat, key: int)
    requires n <= |children| && key in grouped
  {
    grouped[key] == Keep(children[..n], Goes(parents, key))
  }

  /** Placing one child. */
  lemma PlaceChild(grouped: map<int, seq<Candle>>, parents: seq<Candle>, children: seq<Candle>, n: nat, at: nat)
    requires n < |children| && at < |parents| && Grouped(grouped, parents, children, n)
    requires FirstOpen(parents, children[n].openTime) == at
    ensures parents[at].openTime in grouped
    ensures var key, child := parents[at].openTime, children[n];
      Grouped(if Inside(child, parents[at]) then grouped[key := grouped[key] + [child]]
              else grouped, parents, children, n + 1)
  {
    assert parents[at] in parents;
    assert children[..n + 1] == children[..n] + [children[n]];
    var child, next := children[n], n + 1;
    var own := parents[at].openTime;
    var after := if Inside(child, parents[at]) then grouped[own := grouped[own] + [child]] else grouped;
    forall key | key in after ensures GroupIs(after, parents, children, next, key) {
      assert GroupIs(grouped, parents, children, n, key);
      KeepSnoc(children[..n], child, Goes(parents, key));
    }
  }

  /** A parent passed by one sorted child is passed by the next. */
  lemma StillPassed(parents: seq<Candle>, at: nat, children: seq<Candle>, n: nat)
    requires n < |children| && Ordered(children) && at <= |parents| && Passed(parents, at, children[n].openTime)
    ensures n + 1 < |children| ==> Passed(parents, at, children[n + 1].openTime)
  {
  }

  function EmptyGroups(parents: seq<Candle>): map<int, seq<Candle>>
  {
    if parents == [] then map[] else EmptyGroups(parents[..|parents| - 1])[parents[|parents| - 1].openTime := []]
  }

  lemma {:induction false} EmptyGroupsAt(parents: seq<Candle>)
    ensures EmptyGroups(parents).Keys == (set p | p in parents :: p.openTime)
    ensures forall k :: k in EmptyGroups(parents) ==> EmptyGroups(parents)[k] == []
  {
    if parents != [] {
      var init, last := parents[..|parents| - 1], parents[|parents| - 1];
      EmptyGroupsAt(init);
      assert parents == init + [last];
    }
  }

  lemma NothingGrouped(parents: seq<Candle>, children: seq<Candle>)
    ensures Grouped(EmptyGroups(parents), parents, children, 0)
  {
    EmptyGroupsAt(parents);
    forall key | key in EmptyGroups(parents) ensures GroupIs(EmptyGroups(parents), parents, children, 0, key) {
    }
  }

  /** Past the last parent no sorted child is placed any more. */
  lemma JoinDone(grouped: map<int, seq<Candle>>, parents: seq<Candle>, children: seq<Candle>, n: nat)
    requires n < |children| && Ordered(children) && Grouped(grouped, parents, children, n)
    requires Passed(parents, |parents|, children[n].openTime)
    ensures Grouped(grouped, parents, children, |children|)
  {
    assert children == children[..n] + children[n..] && children[..|children|] == children;
    forall key | key in grouped ensures GroupIs(grouped, parents, children, |children|, key) {
      assert GroupIs(grouped, parents, children, n, key);
      forall child | child in children[n..] ensures !Goes(parents, key)(child) {
        var i :| 0 <= i < |children| - n && children[n..][i] == child;
        assert child == children[n + i] && children[n].openTime <= child.openTime;
        FirstOpenIs(parents, |parents|, child.openTime);
      }
      KeepAllOrNone(children[n..], Goes(parents, key), false);
      KeepAppend(children[..n], children[n..], Goes(parents, key));
    }
  }

  /**
   * For sorted children and any parents, each child goes to the first parent still open then, if it opens inside it.
   */
  method ExecutionCandlesByParent(parents: seq<Candle>, children: seq<Candle>) returns (grouped: map<int, seq<Candle>>)
    requires Ordered(children)
    ensures Grouped(grouped, parents, children, |children|)
  {
    grouped := EmptyGroups(parents);
    NothingGrouped(parents, children);
    var at, n := 0, 0;
    while n < |children|
      invariant 0 <= at <= |parents| && 0 <= n <= |children|
      invariant Grouped(grouped, parents, children, n)
      invariant n < |children| ==> Passed(parents, at, children[n].openTime)
    {
      var child := children[n];
      while at < |parents| && child.openTime > parents[at].closeTime
        invariant 0 <= at <= |parents| && Passed(parents, at, child.openTime)
      {
        at := at + 1;
      }
      if at >= |parents| {
        JoinDone(grouped, parents, children, n);
        return;
      }
      FirstOpenIs(parents, at, child.openTime);
      PlaceChild(grouped, parents, children, n, at);
      StillPassed(parents, at, children, n);
      if parents[at].openTime <= child.openTime <= parents[at].closeTime {
        grouped := grouped[parents[at].openTime := grouped[parents[at].openTime] + [child]];
      }
      n := n + 1;
    }
  }

  function OpensIn(parent: Candle): Candle -> bool { (child: Candle) => Inside(child, parent) }

  /**
   * On separate parents the groups are what a nested loop collects: the children that open inside each parent, in
   * order.
   */
  lemma SeparateJoin(grouped: map<int, seq<Candle>>, parents: seq<Candle>, children: seq<Candle>, k: nat)
    requires Separate(parents) && k < |parents| && Grouped(grouped, parents, children, |children|)
    ensures parents[k].openTime in grouped && grouped[parents[k].openTime] == Keep(children, OpensIn(parents[k]))
  {
    assert parents[k] in parents && children[..|children|] == children;
    var key := parents[k].openTime;
    assert key in grouped && GroupIs(grouped, parents, children, |children|, key);
    forall child ensures Goes(parents, key)(child) == Inside(child, parents[k]) {
      InsideOne(parents, k, child);
    }
    KeepSame(children, Goes(parents, key), OpensIn(parents[k]));
  }

  lemma InsideOne(parents: seq<Candle>, k: nat, child: Candle)
    requires Separate(parents) && k < |parents|
    ensures Goes(parents, parents[k].openTime)(child) == Inside(child, parents[k])
  {
    var at := FirstOpen(parents, child.openTime);
    if Inside(child, parents[k]) {
      forall i | 0 <= i < k ensures parents[i].closeTime < child.openTime {
        assert parents[i].closeTime < parents[k].openTime;
      }
      FirstOpenIs(parents, k, child.openTime);
    } else if at < |parents| && at != k {
      assert at < k ==> parents[at].openTime <= parents[at].closeTime < parents[k].openTime;
      assert k < at ==> parents[k].openTime <= parents[k].closeTime < parents[at].openTime;
    }
  }

  /** Each child lands under at most one key. */
  lemma PlacedAtMostOnce(parents: seq<Candle>, child: Candle, i: int, j: int)
    requires Goes(parents, i)(child) && Goes(parents, j)(child)
    ensures i == j
  {
  }
}
