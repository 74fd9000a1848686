/** The simple form of the merge: sort every level, cut after the `n`-th distinct price. */
module Reference {
  import opened Floats
  import opened Books
  import opened MergeSpec
  import opened Uniqueness

  /** `a` has to stand before `b`. */
  predicate GoesBefore(side: Side, a: Level, b: Level) {
    Better(side, Key(a.price), Key(b.price)) || (Key(a.price) == Key(b.price) && Lt(b.amount, a.amount))
  }

  function Insert(side: Side, s: seq<Level>, l: Level): seq<Level> {
    if s == [] then [l]
    else if GoesBefore(side, l, s[0]) then [l] + s
    else [s[0]] + Insert(side, s[1..], l)
  }

  function SortLevels(side: Side, all: seq<Level>): seq<Level> {
    if all == [] then [] else Insert(side, SortLevels(side, all[1..]), all[0])
  }

  function DistinctKeys(s: seq<Level>): set<F64> {
    set l | l in s :: Key(l.price)
  }

  /** The longest prefix with at most `n` distinct keyed prices. */
  function Cut(n: nat, s: seq<Level>): seq<Level> {
    if s == [] || |DistinctKeys(s)| <= n then s else Cut(n, s[..|s| - 1])
  }

  /** `a` may stand before `b`, where amounts are compared only at the prices in `clean`. */
  predicate PairOrdered(side: Side, clean: set<F64>, a: Level, b: Level) {
    && !Better(side, Key(b.price), Key(a.price))
    && (Key(a.price) == Key(b.price) && Key(a.price) in clean ==> Ge(a.amount, b.amount))
  }

  ghost predicate Ordered(side: Side, clean: set<F64>, s: seq<Level>) {
    forall i, j :: 0 <= i < j < |s| ==> PairOrdered(side, clean, s[i], s[j])
  }

  ghost predicate KeysOrdered(side: Side, s: seq<Level>) {
    forall i, j :: 0 <= i < j < |s| ==> !Better(side, Key(s[j].price), Key(s[i].price))
  }

  /** No level at a price in `clean` has a NaN amount. */
  ghost predicate CleanAmounts(clean: set<F64>, s: seq<Level>) {
    forall l :: l in s && Key(l.price) in clean ==> !l.amount.NaN?
  }

  lemma ConsMultiset(x: Level, s: seq<Level>)
    ensures multiset([x] + s) == multiset{x} + multiset(s)
  {
  }

  lemma {:induction false} InsertPermutes(side: Side, s: seq<Level>, l: Level)
    ensures multiset(Insert(side, s, l)) == multiset(s) + multiset{l}
  {
    if s != [] && !GoesBefore(side, l, s[0]) {
      InsertPermutes(side, s[1..], l);
      ConsMultiset(s[0], s[1..]);
      ConsMultiset(s[0], Insert(side, s[1..], l));
      assert s == [s[0]] + s[1..];
    } else {
      ConsMultiset(l, s);
    }
  }

  lemma {:induction false} SortPermutes(side: Side, all: seq<Level>)
    ensures multiset(SortLevels(side, all)) == multiset(all)
  {
    if all != [] {
      SortPermutes(side, all[1..]);
      InsertPermutes(side, SortLevels(side, all[1..]), all[0]);
      assert all == [all[0]] + all[1..];
    }
  }

  lemma InsertMembers(side: Side, s: seq<Level>, l: Level, x: Level)
    requires x in Insert(side, s, l)
    ensures x == l || x in s
  {
  }

  lemma {:induction false} InsertOrdered(side: Side, clean: set<F64>, s: seq<Level>, l: Level)
    requires Ordered(side, clean, s) && CleanAmounts(clean, s + [l])
    ensures Ordered(side, clean, Insert(side, s, l))
  {
    if s == [] {
    } else if GoesBefore(side, l, s[0]) {
      forall j | 0 <= j < |s| ensures PairOrdered(side, clean, l, s[j]) {
        assert j > 0 ==> PairOrdered(side, clean, s[0], s[j]);
      }
    } else {
      var rest := Insert(side, s[1..], l);
      assert forall x :: x in s[1..] + [l] ==> x in s + [l];
      InsertOrdered(side, clean, s[1..], l);
      assert l in s + [l] && s[0] in s + [l];
      forall j | 0 <= j < |rest| ensures PairOrdered(side, clean, s[0], rest[j]) {
        InsertMembers(side, s[1..], l, rest[j]);
      }
    }
  }

  lemma {:induction false} SortOrdered(side: Side, clean: set<F64>, all: seq<Level>)
    requires CleanAmounts(clean, all)
    ensures Ordered(side, clean, SortLevels(side, all))
  {
    if all != [] {
      SortOrdered(side, clean, all[1..]);
      var s := SortLevels(side, all[1..]);
      SortPermutes(side, all[1..]);
      forall x | x in s + [all[0]] ensures x in all {
        assert x in s ==> x in multiset(s);
      }
      InsertOrdered(side, clean, s, all[0]);
    }
  }

  lemma {:induction false} CutIsPrefix(n: nat, s: seq<Level>)
    ensures Cut(n, s) <= s && |DistinctKeys(Cut(n, s))| <= n
    ensures Cut(n, s) != s ==> |DistinctKeys(s[..|Cut(n, s)| + 1])| > n
  {
    if s == [] {
      assert DistinctKeys(s) == {};
    } else if |DistinctKeys(s)| > n {
      CutIsPrefix(n, s[..|s| - 1]);
      if Cut(n, s[..|s| - 1]) == s[..|s| - 1] {
        assert s[..|s|] == s;
      } else {
        assert s[..|s| - 1][..|Cut(n, s)| + 1] == s[..|Cut(n, s)| + 1];
      }
    }
  }

  lemma SubsetSize<T>(a: set<T>, b: set<T>)
    requires a <= b
    ensures |a| <= |b|
  {
    assert b == a + (b - a);
  }

  lemma BetterIsBefore(side: Side, s: seq<Level>, i: nat, x: F64)
    requires KeysOrdered(side, s) && i < |s| && x in BetterKeys(side, s, Key(s[i].price))
    ensures x in DistinctKeys(s[..i]) && x != Key(s[i].price)
  {
  }

  lemma BeforeIsBetter(side: Side, s: seq<Level>, i: nat, x: F64)
    requires KeysOrdered(side, s) && i < |s| && x in DistinctKeys(s[..i + 1])
    ensures x == Key(s[i].price) || x in BetterKeys(side, s, Key(s[i].price))
  {
  }

  lemma InsideCut(side: Side, n: nat, s: seq<Level>, i: nat)
    requires KeysOrdered(side, s) && i < |Cut(n, s)| && i < |s|
    ensures Kept(side, n, s, s[i])
  {
    CutIsPrefix(n, s);
    var p, k := Cut(n, s), Key(s[i].price);
    assert s[..i + 1] <= p;
    forall x | x in BetterKeys(side, s, k) + {k} ensures x in DistinctKeys(p) {
      if x != k {
        BetterIsBefore(side, s, i, x);
        KeyOfPrefix(s[..i], p, x);
      } else {
        assert p[i] == s[i];
      }
    }
    SubsetSize(BetterKeys(side, s, k) + {k}, DistinctKeys(p));
    assert k !in BetterKeys(side, s, k);
  }

  lemma KeyOfPrefix(a: seq<Level>, b: seq<Level>, x: F64)
    requires a <= b && x in DistinctKeys(a)
    ensures x in DistinctKeys(b)
  {
  }

  /** Later levels have at least as many better prices. */
  lemma RankGrows(side: Side, s: seq<Level>, i: nat, j: nat)
    requires KeysOrdered(side, s) && i <= j < |s|
    ensures |BetterKeys(side, s, Key(s[i].price))| <= |BetterKeys(side, s, Key(s[j].price))|
  {
    assert i < j ==> !Better(side, Key(s[j].price), Key(s[i].price));
    SubsetSize(BetterKeys(side, s, Key(s[i].price)), BetterKeys(side, s, Key(s[j].price)));
  }

  lemma PrefixKeys(side: Side, s: seq<Level>, q: nat)
    requires KeysOrdered(side, s) && q < |s|
    ensures |DistinctKeys(s[..q + 1])| <= |BetterKeys(side, s, Key(s[q].price))| + 1
  {
    var k := Key(s[q].price);
    forall x | x in DistinctKeys(s[..q + 1]) ensures x in BetterKeys(side, s, k) + {k} {
      BeforeIsBetter(side, s, q, x);
    }
    SubsetSize(DistinctKeys(s[..q + 1]), BetterKeys(side, s, k) + {k});
  }

  lemma OutsideCut(side: Side, n: nat, s: seq<Level>, i: nat)
    requires KeysOrdered(side, s) && |Cut(n, s)| <= i < |s|
    ensures !Kept(side, n, s, s[i])
  {
    CutIsPrefix(n, s);
    PrefixKeys(side, s, |Cut(n, s)|);
    RankGrows(side, s, |Cut(n, s)|, i);
  }

  /** The simple form is a merge whenever the grouped form does not have to compare a NaN amount. */
  lemma ReferenceIsMerge(side: Side, n: nat, all: seq<Level>)
    requires !ComparesNaN(side, n, all)
    ensures IsMerge(side, n, all, Cut(n, SortLevels(side, all)))
  {
    var s := SortLevels(side, all);
    var clean := set l | l in all && CleanAmounts({Key(l.price)}, all) :: Key(l.price);
    assert CleanAmounts(clean, all);
    SortOrdered(side, clean, all);
    assert KeysOrdered(side, s) by {
      forall i, j | 0 <= i < j < |s| ensures !Better(side, Key(s[j].price), Key(s[i].price)) {
        assert PairOrdered(side, clean, s[i], s[j]);
      }
    }
    SortPermutes(side, all);
    forall l: Level ensures multiset(Cut(n, s))[l] == if Kept(side, n, all, l) then multiset(all)[l] else 0 {
      SameKept(side, n, all, s, l);
      CutCounts(side, n, s, l);
    }
    CutSorted(side, n, all, clean, s);
  }

  lemma CutSorted(side: Side, n: nat, all: seq<Level>, clean: set<F64>, s: seq<Level>)
    requires multiset(all) == multiset(s) && !ComparesNaN(side, n, all)
    requires Ordered(side, clean, s) && KeysOrdered(side, s)
    requires forall l :: l in all && CleanAmounts({Key(l.price)}, all) ==> Key(l.price) in clean
    ensures Sorted(side, Cut(n, s))
  {
    var p := Cut(n, s);
    CutIsPrefix(n, s);
    forall i, j | 0 <= i < j < |p| ensures MayPrecede(side, p[i], p[j]) {
      assert p[i] == s[i] && p[j] == s[j];
      assert PairOrdered(side, clean, s[i], s[j]);
      if Key(p[i].price) == Key(p[j].price) {
        InsideCut(side, n, s, i);
        SameKept(side, n, all, s, s[i]);
        TwoAtKey(s, i, j);
        SharedPriceComparable(side, n, all, s, s[i]);
        assert s[i] in multiset(all);
      }
    }
  }

  lemma BehindCut(side: Side, n: nat, s: seq<Level>, l: Level)
    requires KeysOrdered(side, s) && |Cut(n, s)| <= |s| && l in s[|Cut(n, s)|..]
    ensures !Kept(side, n, s, l)
  {
    var q := |Cut(n, s)|;
    var i :| 0 <= i < |s[q..]| && s[q..][i] == l;
    OutsideCut(side, n, s, q + i);
  }

  lemma InCut(side: Side, n: nat, s: seq<Level>, l: Level)
    requires KeysOrdered(side, s) && l in Cut(n, s)
    ensures Kept(side, n, s, l)
  {
    CutIsPrefix(n, s);
    var i :| 0 <= i < |Cut(n, s)| && Cut(n, s)[i] == l;
    InsideCut(side, n, s, i);
  }

  lemma SplitCount(p: seq<Level>, rest: seq<Level>, l: Level)
    ensures multiset(p + rest)[l] == multiset(p)[l] + multiset(rest)[l]
    ensures l in p <==> multiset(p)[l] > 0
    ensures l in rest <==> multiset(rest)[l] > 0
  {
  }

  lemma CutCounts(side: Side, n: nat, s: seq<Level>, l: Level)
    requires KeysOrdered(side, s)
    ensures multiset(Cut(n, s))[l] == if Kept(side, n, s, l) then multiset(s)[l] else 0
  {
    CutIsPrefix(n, s);
    var q := |Cut(n, s)|;
    assert s == Cut(n, s) + s[q..];
    SplitCount(Cut(n, s), s[q..], l);
    if l in s[q..] {
      BehindCut(side, n, s, l);
    }
    if l in Cut(n, s) {
      InCut(side, n, s, l);
    }
  }

  lemma {:induction false} TwoAtKey(s: seq<Level>, i: nat, j: nat)
    requires i < j < |s| && Key(s[i].price) == Key(s[j].price)
    ensures |AtKey(s, Key(s[i].price))| >= 2
  {
    var k := Key(s[i].price);
    assert s == s[..i] + [s[i]] + s[i + 1..j] + [s[j]] + s[j + 1..];
    AtKeyAppend(s[..i] + [s[i]] + s[i + 1..j] + [s[j]], s[j + 1..], k);
    AtKeyAppend(s[..i] + [s[i]] + s[i + 1..j], [s[j]], k);
    AtKeyAppend(s[..i] + [s[i]], s[i + 1..j], k);
    AtKeyAppend(s[..i], [s[i]], k);
    assert [s[i]][..0] == [] && [s[j]][..0] == [];
  }

  lemma SharedPriceComparable(side: Side, n: nat, all: seq<Level>, s: seq<Level>, l: Level)
    requires multiset(all) == multiset(s) && !ComparesNaN(side, n, all)
    requires l in s && Kept(side, n, all, l) && |AtKey(s, Key(l.price))| >= 2
    ensures CleanAmounts({Key(l.price)}, all)
  {
    var k := Key(l.price);
    forall x: Level ensures multiset(AtKey(all, k))[x] == multiset(AtKey(s, k))[x] {
      AtKeyCount(all, k, x);
      AtKeyCount(s, k, x);
    }
    assert multiset(AtKey(all, k)) == multiset(AtKey(s, k));
    assert |AtKey(all, k)| == |multiset(AtKey(all, k))| == |AtKey(s, k)|;
  }

  /** The refinement: whatever the grouped, capacity-bounded form returns is the simple form,
      up to the order of levels that agree in keyed price and amount. */
  lemma MergeRefinesSortAndCut(side: Side, n: nat, all: seq<Level>, out: seq<Level>)
    requires !ComparesNaN(side, n, all)
    ensures IsMerge(side, n, all, out) <==> Equivalent(out, Cut(n, SortLevels(side, all)))
  {
    var r := Cut(n, SortLevels(side, all));
    ReferenceIsMerge(side, n, all);
    if IsMerge(side, n, all, out) {
      MergeUnique(side, n, all, all, out, r);
    }
    if Equivalent(out, r) {
      forall i, j | 0 <= i < j < |out| ensures MayPrecede(side, out[i], out[j]) {
        assert |Rungs(out)| == |Rungs(r)|;
        assert Rungs(out)[i] == Rungs(r)[i] && Rungs(out)[j] == Rungs(r)[j];
        assert MayPrecede(side, r[i], r[j]);
      }
    }
  }

  /** A conversion that does not panic has a result. */
  lemma ConversionExists(n: nat, slots: seq<Snapshot>)
    requires !Panics(n, slots)
    ensures exists summary :: Published(n, slots, summary)
  {
    var bids := Cut(n, SortLevels(Bid, AllLevels(Bid, slots)));
    var asks := Cut(n, SortLevels(Ask, AllLevels(Ask, slots)));
    ReferenceIsMerge(Bid, n, AllLevels(Bid, slots));
    ReferenceIsMerge(Ask, n, AllLevels(Ask, slots));
    assert Published(n, slots, Summary(Spread(bids, asks), bids, asks, LatestTime(slots)));
  }
}
