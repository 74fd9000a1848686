/** Reading the price map back: keep the first `n` buckets, sort each by amount, flatten. */
module Buckets {
  import opened Floats
  import opened Books
  import opened MergeSpec
  import opened PriceMaps

  ghost predicate AmountsDescend(levels: seq<Level>) {
    forall i, j :: 0 <= i < j < |levels| ==> Ge(levels[i].amount, levels[j].amount)
  }

  /** The contract of `sort_unstable_by` on amounts: a permutation in descending order, in an
      unspecified order among equal amounts. Sorting two or more levels compares every one of
      them, and comparing a NaN amount panics. */
  method SortByAmount(levels: seq<Level>) returns (ok: bool, sorted: seq<Level>)
    ensures ok <==> |levels| < 2 || forall l :: l in levels ==> !l.amount.NaN?
    ensures ok ==> multiset(sorted) == multiset(levels) && AmountsDescend(sorted)
  {
    sorted := levels;
    if |levels| < 2 { return true, levels; }
    for i := 0 to |levels|
      invariant forall j :: 0 <= j < i ==> !levels[j].amount.NaN?
    {
      if levels[i].amount.NaN? { return false, levels; }
    }
    ok, sorted := true, [];
    for i := 0 to |levels|
      invariant multiset(sorted) == multiset(levels[..i])
      invariant AmountsDescend(sorted)
    {
      assert levels[..i + 1] == levels[..i] + [levels[i]];
      forall l | l in sorted ensures !l.amount.NaN? {
        assert l in multiset(sorted);
      }
      sorted := InsertByAmount(sorted, levels[i]);
    }
    assert levels[..|levels|] == levels;
  }

  method InsertByAmount(sorted: seq<Level>, level: Level) returns (r: seq<Level>)
    requires AmountsDescend(sorted) && !level.amount.NaN?
    requires forall l :: l in sorted ==> !l.amount.NaN?
    ensures multiset(r) == multiset(sorted) + multiset{level}
    ensures AmountsDescend(r)
  {
    var p := 0;
    while p < |sorted| && Ge(sorted[p].amount, level.amount)
      invariant p <= |sorted|
      invariant forall i :: 0 <= i < p ==> Ge(sorted[i].amount, level.amount)
    {
      p := p + 1;
    }
    assert p < |sorted| ==> forall i :: p < i < |sorted| ==> Ge(sorted[p].amount, sorted[i].amount);
    r := sorted[..p] + [level] + sorted[p..];
    InsertPermutes(sorted, level, p);
    InsertKeepsDescending(sorted, level, p);
  }

  lemma InsertPermutes(s: seq<Level>, level: Level, p: nat)
    requires p <= |s|
    ensures multiset(s[..p] + [level] + s[p..]) == multiset(s) + multiset{level}
  {
    assert s == s[..p] + s[p..];
  }

  lemma InsertKeepsDescending(s: seq<Level>, level: Level, p: nat)
    requires AmountsDescend(s) && p <= |s|
    requires forall i :: 0 <= i < p ==> Ge(s[i].amount, level.amount)
    requires forall i :: p <= i < |s| ==> Ge(level.amount, s[i].amount)
    ensures AmountsDescend(s[..p] + [level] + s[p..])
  {
  }

  /** One of the first `m` buckets is at keyed price `k`. */
  ghost predicate InFirst(buckets: seq<Bucket>, m: nat, k: F64)
    requires m <= |buckets|
  {
    exists j :: 0 <= j < m && buckets[j].key == k
  }

  function Keys(buckets: seq<Bucket>): seq<F64> {
    seq(|buckets|, i requires 0 <= i < |buckets| => buckets[i].key)
  }

  lemma BetterIsEarlier(side: Side, buckets: seq<Bucket>, pushed: seq<Level>, j: nat, k: F64)
    requires Holds(side, buckets, pushed) && j < |buckets|
    requires k in BetterKeys(side, pushed, buckets[j].key)
    ensures k in Keys(buckets)[..j]
  {
    var l :| l in pushed && Key(l.price) == k && Better(side, k, buckets[j].key);
    var i :| 0 <= i < |buckets| && buckets[i].key == k;
    assert !Better(side, buckets[j].key, k);
    assert i < j;
    assert Keys(buckets)[..j][i] == k;
  }

  lemma EarlierIsBetter(side: Side, buckets: seq<Bucket>, pushed: seq<Level>, j: nat, i: nat)
    requires Holds(side, buckets, pushed) && i < j < |buckets|
    ensures buckets[i].key in BetterKeys(side, pushed, buckets[j].key)
  {
    KeysArePrices(side, buckets, pushed, i);
  }

  /** The position of a bucket is the number of strictly better distinct prices. */
  lemma RankIsPosition(side: Side, buckets: seq<Bucket>, pushed: seq<Level>, j: nat)
    requires Holds(side, buckets, pushed) && j < |buckets|
    ensures |BetterKeys(side, pushed, buckets[j].key)| == j
  {
    var keys := Keys(buckets)[..j];
    var firsts := set k | k in keys;
    forall k | k in firsts ensures k in BetterKeys(side, pushed, buckets[j].key) {
      var i :| 0 <= i < j && keys[i] == k;
      EarlierIsBetter(side, buckets, pushed, j, i);
    }
    forall k | k in BetterKeys(side, pushed, buckets[j].key) ensures k in firsts {
      BetterIsEarlier(side, buckets, pushed, j, k);
    }
    assert firsts == BetterKeys(side, pushed, buckets[j].key);
    DistinctKeysInOrder(side, buckets, j);
    DistinctCount(keys);
  }

  lemma DistinctKeysInOrder(side: Side, buckets: seq<Bucket>, m: nat)
    requires m <= |buckets|
    requires forall i, j :: 0 <= i < j < |buckets| ==> Better(side, buckets[i].key, buckets[j].key)
    ensures var keys := Keys(buckets)[..m]; forall i, j :: 0 <= i < j < |keys| ==> keys[i] != keys[j]
  {
  }

  lemma {:induction false} DistinctCount(keys: seq<F64>)
    requires forall i, j :: 0 <= i < j < |keys| ==> keys[i] != keys[j]
    ensures |set k | k in keys| == |keys|
  {
    if keys == [] {
      assert (set k | k in keys) == {};
    } else {
      var front, last := keys[..|keys| - 1], keys[|keys| - 1];
      DistinctCount(front);
      assert keys == front + [last];
      assert (set k | k in keys) == (set k | k in front) + {last};
    }
  }

  /** A level is kept exactly when its bucket is one of the first `n`. */
  lemma KeptIsInFirst(side: Side, buckets: seq<Bucket>, pushed: seq<Level>, n: nat, l: Level)
    requires Holds(side, buckets, pushed) && l in pushed
    ensures Kept(side, n, pushed, l) <==> InFirst(buckets, if n < |buckets| then n else |buckets|, Key(l.price))
  {
    var m := if n < |buckets| then n else |buckets|;
    var j :| 0 <= j < |buckets| && buckets[j].key == Key(l.price);
    RankIsPosition(side, buckets, pushed, j);
    if InFirst(buckets, m, Key(l.price)) {
      var i :| 0 <= i < m && buckets[i].key == Key(l.price);
      RankIsPosition(side, buckets, pushed, i);
    } else {
      assert j >= m;
    }
  }

  /** `out` is sorted and holds exactly the levels of the first `m` buckets. */
  ghost predicate Collected(side: Side, buckets: seq<Bucket>, pushed: seq<Level>, m: nat, out: seq<Level>)
    requires m <= |buckets|
  {
    && Sorted(side, out)
    && forall l: Level {:trigger multiset(out)[l]} ::
         multiset(out)[l] == if InFirst(buckets, m, Key(l.price)) then multiset(pushed)[l] else 0
  }

  lemma AppendCollects(side: Side, buckets: seq<Bucket>, pushed: seq<Level>, m: nat, out: seq<Level>,
                       sorted: seq<Level>, l: Level)
    requires Holds(side, buckets, pushed) && m < |buckets|
    requires multiset(out)[l] == if InFirst(buckets, m, Key(l.price)) then multiset(pushed)[l] else 0
    requires multiset(sorted) == multiset(buckets[m].levels)
    ensures multiset(out + sorted)[l] == if InFirst(buckets, m + 1, Key(l.price)) then multiset(pushed)[l] else 0
  {
    var key := buckets[m].key;
    AtKeyCount(pushed, key, l);
    KeysArePrices(side, buckets, pushed, m);
    assert InFirst(buckets, m, Key(l.price)) ==> Better(side, Key(l.price), key);
    assert InFirst(buckets, m + 1, Key(l.price)) <==> InFirst(buckets, m, Key(l.price)) || Key(l.price) == key;
  }

  /** The next sorted bucket goes behind all levels of the buckets before it. */
  lemma AppendSorts(side: Side, key: F64, out: seq<Level>, sorted: seq<Level>)
    requires Sorted(side, out) && AmountsDescend(sorted)
    requires forall l :: l in out ==> Better(side, Key(l.price), key)
    requires forall l :: l in sorted ==> Key(l.price) == key
    ensures Sorted(side, out + sorted)
  {
  }

  lemma AppendBucket(side: Side, buckets: seq<Bucket>, pushed: seq<Level>, m: nat, before: seq<Level>,
                     sorted: seq<Level>, out: seq<Level>)
    requires Holds(side, buckets, pushed) && 0 < m <= |buckets|
    requires Collected(side, buckets, pushed, m - 1, before) && out == before + sorted
    requires multiset(sorted) == multiset(buckets[m - 1].levels) && AmountsDescend(sorted)
    ensures Collected(side, buckets, pushed, m, out)
  {
    var key := buckets[m - 1].key;
    forall l: Level
      ensures multiset(out)[l] == if InFirst(buckets, m, Key(l.price)) then multiset(pushed)[l] else 0
    {
      AppendCollects(side, buckets, pushed, m - 1, before, sorted, l);
    }
    forall l | l in before ensures Better(side, Key(l.price), key) {
      assert multiset(before)[l] > 0;
      assert InFirst(buckets, m - 1, Key(l.price));
    }
    forall l | l in sorted ensures Key(l.price) == key {
      assert l in multiset(sorted);
      InAtKey(pushed, key, l);
    }
    AppendSorts(side, key, before, sorted);
  }

  /** What the first buckets hold is what is kept. */
  lemma FirstBucketsAreKept(side: Side, buckets: seq<Bucket>, pushed: seq<Level>, n: nat, out: seq<Level>)
    requires Holds(side, buckets, pushed)
    requires Collected(side, buckets, pushed, if n < |buckets| then n else |buckets|, out)
    ensures IsMerge(side, n, pushed, out)
  {
    forall l: Level ensures multiset(out)[l] == if Kept(side, n, pushed, l) then multiset(pushed)[l] else 0 {
      if l in multiset(pushed) {
        KeptIsInFirst(side, buckets, pushed, n, l);
      }
    }
  }

  /** The kept bucket `j` holds two levels, one of them with a NaN amount. */
  ghost predicate ClashesAt(buckets: seq<Bucket>, j: nat)
    requires j < |buckets|
  {
    |buckets[j].levels| >= 2 && exists l :: l in buckets[j].levels && l.amount.NaN?
  }

  lemma ClashIsComparesNaN(side: Side, buckets: seq<Bucket>, pushed: seq<Level>, n: nat)
    requires Holds(side, buckets, pushed)
    ensures var m := if n < |buckets| then n else |buckets|;
      ComparesNaN(side, n, pushed) <==> exists j: nat :: j < m && ClashesAt(buckets, j)
  {
    var m := if n < |buckets| then n else |buckets|;
    if j: nat :| j < m && ClashesAt(buckets, j) {
      var l :| l in buckets[j].levels && l.amount.NaN?;
      InAtKey(pushed, buckets[j].key, l);
      KeptIsInFirst(side, buckets, pushed, n, l);
    } else if ComparesNaN(side, n, pushed) {
      var l :| l in pushed && Kept(side, n, pushed, l) && l.amount.NaN? && |AtKey(pushed, Key(l.price))| >= 2;
      KeptIsInFirst(side, buckets, pushed, n, l);
      var j: nat :| j < m && buckets[j].key == Key(l.price);
      InAtKey(pushed, buckets[j].key, l);
      assert ClashesAt(buckets, j);
    }
  }

  /** `out` is the first `m` buckets, each sorted by amount, one after the other. */
  ghost predicate Flattened(buckets: seq<Bucket>, m: nat, out: seq<Level>)
    requires m <= |buckets|
    decreases m
  {
    if m == 0 then out == []
    else exists before, sorted ::
      && out == before + sorted
      && Flattened(buckets, m - 1, before)
      && multiset(sorted) == multiset(buckets[m - 1].levels) && AmountsDescend(sorted)
  }

  lemma {:induction false} FlattenedIsCollected(side: Side, buckets: seq<Bucket>, pushed: seq<Level>, m: nat,
                                                out: seq<Level>)
    requires Holds(side, buckets, pushed) && m <= |buckets| && Flattened(buckets, m, out)
    ensures Collected(side, buckets, pushed, m, out)
    decreases m
  {
    if m > 0 {
      var before, sorted :|
        && out == before + sorted
        && Flattened(buckets, m - 1, before)
        && multiset(sorted) == multiset(buckets[m - 1].levels) && AmountsDescend(sorted);
      FlattenedIsCollected(side, buckets, pushed, m - 1, before);
      AppendBucket(side, buckets, pushed, m, before, sorted, out);
    }
  }

  /** `into_iter().take(n).flat_map(sort)` over the map; not ok is the panic of a NaN comparison. */
  method TakeSorted(prices: PriceMap) returns (ok: bool, out: seq<Level>)
    requires prices.Valid()
    ensures ok <==> !ComparesNaN(prices.side, prices.n, prices.pushed)
    ensures ok ==> IsMerge(prices.side, prices.n, prices.pushed, out)
  {
    var m := if prices.n < |prices.buckets| then prices.n else |prices.buckets|;
    ok, out := SortBuckets(prices.buckets, m);
    ClashIsComparesNaN(prices.side, prices.buckets, prices.pushed, prices.n);
    if ok {
      FlattenedIsCollected(prices.side, prices.buckets, prices.pushed, m, out);
      FirstBucketsAreKept(prices.side, prices.buckets, prices.pushed, prices.n, out);
    }
  }

  method SortBuckets(buckets: seq<Bucket>, m: nat) returns (ok: bool, out: seq<Level>)
    requires m <= |buckets|
    ensures ok ==> Flattened(buckets, m, out) && forall j: nat :: j < m ==> !ClashesAt(buckets, j)
    ensures !ok ==> exists j: nat :: j < m && ClashesAt(buckets, j)
  {
    ok, out := true, [];
    for i := 0 to m
      invariant ok && Flattened(buckets, i, out)
      invariant forall j: nat :: j < i ==> !ClashesAt(buckets, j)
    {
      var sorted;
      ok, sorted := SortByAmount(buckets[i].levels);
      if !ok {
        assert ClashesAt(buckets, i);
        return;
      }
      assert !ClashesAt(buckets, i);
      out := out + sorted;
    }
  }
}
