/** Small vocabulary shared by every module: optional values, exact decimals, sums. */
module Common {

  datatype Option<+T> = None | Some(value: T)

  function Abs(x: real): real { if x < 0.0 then -x else x }

  function Min(x: real, y: real): real { if y < x then y else x }

  function Max(x: real, y: real): real { if y > x then y else x }

  function MaxInt(x: int, y: int): int { if y > x then y else x }

  function Clamp(x: real, low: real, high: real): real { Min(Max(x, low), high) }

  /** Multiplication under a name, so that proofs can rewrite inside products. */
  function Times(x: real, y: real): real { x * y }

  /** So many percent of an amount. */
  function PercentOf(x: real, pct: real): real { x * pct / 100.0 }

  lemma TimesSum(x: real, y: real, z: real)
    ensures Times(x + y, z) == Times(x, z) + Times(y, z)
    ensures Times(z, x + y) == Times(z, x) + Times(z, y)
  {
  }

  lemma TimesOrder(x: real, y: real, z: real)
    requires x >= 0.0 && y <= z
    ensures Times(x, y) <= Times(x, z)
  {
  }

  lemma TimesStrict(x: real, y: real, z: real)
    requires x > 0.0 && y < z
    ensures Times(x, y) < Times(x, z)
  {
  }

  /** Comparing a quotient is comparing products. */
  lemma RatioCompares(x: real, whole: real, r: real)
    requires whole > 0.0
    ensures x / whole >= r <==> x >= Times(r, whole)
    ensures x / whole <= r <==> x <= Times(r, whole)
  {
    var part := x / whole;
    assert part * whole == x;
    if part < r { TimesStrict(whole, part, r); }
    if part > r { TimesStrict(whole, r, part); }
  }

  /** A decimal or None is falsy when it is None or zero. */
  predicate Truthy(x: Option<real>) { x.Some? && x.value != 0.0 }

  /** Python's `x or y` on optional decimals. */
  function OrElse(x: Option<real>, y: Option<real>): Option<real> { if Truthy(x) then x else y }

  /** Python's `int(x)`: truncation toward zero. */
  function Truncate(x: real): int { if x >= 0.0 then x.Floor else -((-x).Floor) }

  lemma TruncateTowardZero(x: real)
    ensures Abs(Truncate(x) as real) <= Abs(x) < Abs(Truncate(x) as real) + 1.0
    ensures x >= 0.0 ==> Truncate(x) >= 0
    ensures x <= 0.0 ==> Truncate(x) <= 0
  {
  }
}

/** Sums over dictionaries (in no particular order) and over lists. */
module Sums {

  ghost function Sum<K(!new)>(m: map<K, real>): real
  {
    if m == map[] then 0.0 else var k :| k in m; m[k] + Sum(m - {k})
  }

  /** The order in which a dictionary is added up does not matter. */
  lemma {:induction false} SumTakeOut<K(!new)>(m: map<K, real>, k: K)
    requires k in m
    ensures Sum(m) == m[k] + Sum(m - {k})
    decreases |m|
  {
    var j :| j in m && Sum(m) == m[j] + Sum(m - {j});
    if j != k {
      SumTakeOut(m - {j}, k);
      SumTakeOut(m - {k}, j);
      assert m - {j} - {k} == m - {k} - {j};
    }
  }

  function At<K>(m: map<K, real>, k: K): real { if k in m then m[k] else 0.0 }

  lemma SumSet<K(!new)>(m: map<K, real>, k: K, v: real)
    ensures Sum(m[k := v]) == Sum(m) - At(m, k) + v
  {
    SumTakeOut(m[k := v], k);
    if k in m {
      SumTakeOut(m, k);
      assert m[k := v] - {k} == m - {k};
    } else {
      assert m[k := v] - {k} == m;
    }
  }

  lemma SumDrop<K(!new)>(m: map<K, real>, k: K)
    ensures Sum(m - {k}) == Sum(m) - At(m, k)
  {
    if k in m {
      SumTakeOut(m, k);
    } else {
      assert m - {k} == m;
    }
  }

  /** Dictionaries over the same keys add up entry by entry. */
  lemma {:induction false} SumAdd<K(!new)>(z: map<K, real>, x: map<K, real>, y: map<K, real>)
    requires z.Keys == x.Keys == y.Keys
    requires forall k :: k in z ==> z[k] == x[k] + y[k]
    ensures Sum(z) == Sum(x) + Sum(y)
    decreases |z|
  {
    if z == map[] {
      assert x == map[] && y == map[];
    } else {
      var k :| k in z;
      SumTakeOut(z, k);
      SumTakeOut(x, k);
      SumTakeOut(y, k);
      SumAdd(z - {k}, x - {k}, y - {k});
    }
  }

  /** Left-to-right sum of a list. */
  function SumSeq(s: seq<real>): real
  {
    if s == [] then 0.0 else SumSeq(s[..|s| - 1]) + s[|s| - 1]
  }

  lemma SumSeqSnoc(s: seq<real>, x: real)
    ensures SumSeq(s + [x]) == SumSeq(s) + x
  {
    assert (s + [x])[..|s|] == s;
  }
}

/** Filtering lists. */
module Lists {

  /** The entries that satisfy a property, in order. */
  function Keep<T>(s: seq<T>, keep: T -> bool): seq<T>
  {
    if s == [] then [] else Keep(s[..|s| - 1], keep) + (if keep(s[|s| - 1]) then [s[|s| - 1]] else [])
  }

  lemma KeepSnoc<T>(s: seq<T>, x: T, keep: T -> bool)
    ensures Keep(s + [x], keep) == Keep(s, keep) + (if keep(x) then [x] else [])
  {
    assert (s + [x])[..|s|] == s;
  }

  lemma {:induction false} KeepAppend<T>(x: seq<T>, y: seq<T>, keep: T -> bool)
    ensures Keep(x + y, keep) == Keep(x, keep) + Keep(y, keep)
  {
    if y == [] {
      assert x + y == x;
    } else {
      assert (x + y)[..|x + y| - 1] == x + y[..|y| - 1];
      KeepAppend(x, y[..|y| - 1], keep);
    }
  }

  lemma {:induction false} KeepAllOrNone<T>(s: seq<T>, keep: T -> bool, all: bool)
    requires forall x :: x in s ==> keep(x) == all
    ensures Keep(s, keep) == if all then s else []
  {
    if s != [] {
      var init, x := s[..|s| - 1], s[|s| - 1];
      assert x in s && forall y :: y in init ==> y in s;
      KeepAllOrNone(init, keep, all);
      assert s == init + [x];
    }
  }

  lemma {:induction false} KeepSame<T>(s: seq<T>, keep: T -> bool, other: T -> bool)
    requires forall x :: x in s ==> keep(x) == other(x)
    ensures Keep(s, keep) == Keep(s, other)
  {
    if s != [] {
      var init, x := s[..|s| - 1], s[|s| - 1];
      assert x in s && forall y :: y in init ==> y in s;
      KeepSame(init, keep, other);
    }
  }

  /** Filtering by a weaker property first changes nothing. */
  lemma {:induction false} KeepTwice<T>(s: seq<T>, weak: T -> bool, strong: T -> bool)
    requires forall x :: strong(x) ==> weak(x)
    ensures Keep(Keep(s, weak), strong) == Keep(s, strong)
  {
    if s != [] {
      var init, x := s[..|s| - 1], s[|s| - 1];
      KeepTwice(init, weak, strong);
      if weak(x) {
        KeepSnoc(Keep(init, weak), x, strong);
      } else {
        assert Keep(s, weak) == Keep(init, weak);
      }
    }
  }
}

/** `list.sort(key=...)`: stable sorting by an ordered key. */
module Sorting {
  import opened Lists

  ghost predicate SortedBy<T>(s: seq<T>, key: T -> real)
  {
    forall i, j :: 0 <= i < j < |s| ==> key(s[i]) <= key(s[j])
  }

  /** Insert behind every element whose key is not larger: this is what keeps the sort stable. */
  function Insert<T>(s: seq<T>, x: T, key: T -> real): seq<T>
  {
    if s == [] then [x]
    else if key(s[|s| - 1]) <= key(x) then s + [x]
    else Insert(s[..|s| - 1], x, key) + [s[|s| - 1]]
  }

  function Sort<T>(s: seq<T>, key: T -> real): seq<T>
  {
    if s == [] then [] else Insert(Sort(s[..|s| - 1], key), s[|s| - 1], key)
  }

  lemma {:induction false} InsertEntries<T>(s: seq<T>, x: T, key: T -> real)
    ensures |Insert(s, x, key)| == |s| + 1
    ensures forall y :: y in Insert(s, x, key) <==> y in s || y == x
  {
    if s != [] {
      assert s == s[..|s| - 1] + [s[|s| - 1]];
      InsertEntries(s[..|s| - 1], x, key);
    }
  }

  /** Sorting changes neither the length nor the entries. */
  lemma {:induction false} SortEntries<T>(s: seq<T>, key: T -> real)
    ensures |Sort(s, key)| == |s| && forall y :: y in Sort(s, key) <==> y in s
  {
    if s != [] {
      assert s == s[..|s| - 1] + [s[|s| - 1]];
      SortEntries(s[..|s| - 1], key);
      InsertEntries(Sort(s[..|s| - 1], key), s[|s| - 1], key);
    }
  }

  /** Sorting rearranges. */
  lemma {:induction false} InsertKeeps<T>(s: seq<T>, x: T, key: T -> real)
    ensures multiset(Insert(s, x, key)) == multiset(s) + multiset{x}
  {
    if s != [] {
      assert s == s[..|s| - 1] + [s[|s| - 1]];
      InsertKeeps(s[..|s| - 1], x, key);
    }
  }

  lemma {:induction false} SortKeeps<T>(s: seq<T>, key: T -> real)
    ensures multiset(Sort(s, key)) == multiset(s)
  {
    if s != [] {
      assert s == s[..|s| - 1] + [s[|s| - 1]];
      SortKeeps(s[..|s| - 1], key);
      InsertKeeps(Sort(s[..|s| - 1], key), s[|s| - 1], key);
    }
  }

  lemma {:induction false} InsertBelow<T>(s: seq<T>, x: T, key: T -> real, top: real)
    requires key(x) <= top && forall i :: 0 <= i < |s| ==> key(s[i]) <= top
    ensures forall i :: 0 <= i < |Insert(s, x, key)| ==> key(Insert(s, x, key)[i]) <= top
  {
    if s != [] { InsertBelow(s[..|s| - 1], x, key, top); }
  }

  lemma {:induction false} InsertSorted<T>(s: seq<T>, x: T, key: T -> real)
    requires SortedBy(s, key)
    ensures SortedBy(Insert(s, x, key), key)
  {
    if s != [] && key(s[|s| - 1]) > key(x) {
      InsertSorted(s[..|s| - 1], x, key);
      InsertBelow(s[..|s| - 1], x, key, key(s[|s| - 1]));
    }
  }

  lemma {:induction false} SortSorts<T>(s: seq<T>, key: T -> real)
    ensures SortedBy(Sort(s, key), key)
  {
    if s != [] {
      SortSorts(s[..|s| - 1], key);
      InsertSorted(Sort(s[..|s| - 1], key), s[|s| - 1], key);
    }
  }

  function HasKey<T>(k: real, key: T -> real): T -> bool { (x: T) => key(x) == k }

  /** The entries with one key value, in order. */
  function WithKey<T>(s: seq<T>, k: real, key: T -> real): seq<T> { Keep(s, HasKey(k, key)) }

  lemma {:induction false} InsertStable<T>(s: seq<T>, x: T, k: real, key: T -> real)
    requires SortedBy(s, key)
    ensures WithKey(Insert(s, x, key), k, key) == WithKey(s, k, key) + (if key(x) == k then [x] else [])
  {
    if s == [] || key(s[|s| - 1]) <= key(x) {
      KeepSnoc(s, x, HasKey(k, key));
    } else {
      var init, last := s[..|s| - 1], s[|s| - 1];
      InsertStable(init, x, k, key);
      KeepSnoc(Insert(init, x, key), last, HasKey(k, key));
      assert HasKey(k, key)(last) ==> !HasKey(k, key)(x);
    }
  }

  /** Equal keys keep their order. */
  lemma {:induction false} SortStable<T>(s: seq<T>, k: real, key: T -> real)
    ensures WithKey(Sort(s, key), k, key) == WithKey(s, k, key)
  {
    if s != [] {
      var init, last := s[..|s| - 1], s[|s| - 1];
      SortStable(init, k, key);
      SortSorts(init, key);
      InsertStable(Sort(init, key), last, k, key);
    }
  }
}
