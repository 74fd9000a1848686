/** A merge is determined up to the order of levels that agree in keyed price and amount. */
module Uniqueness {
  import opened Floats
  import opened Books
  import opened MergeSpec

  /** What the order of a side looks at. */
  datatype Rung = Rung(key: F64, amount: F64)

  function RungOf(l: Level): Rung { Rung(Key(l.price), l.amount) }

  function Rungs(levels: seq<Level>): (r: seq<Rung>)
    ensures |r| == |levels| && forall i :: 0 <= i < |r| ==> r[i] == RungOf(levels[i])
  {
    seq(|levels|, i requires 0 <= i < |levels| => RungOf(levels[i]))
  }

  ghost predicate RungPrecedes(side: Side, a: Rung, b: Rung) {
    Better(side, a.key, b.key) || (a.key == b.key && Ge(a.amount, b.amount))
  }

  /** The same levels, in orders that differ at most among equal rungs. */
  ghost predicate Equivalent(a: seq<Level>, b: seq<Level>) {
    multiset(a) == multiset(b) && Rungs(a) == Rungs(b)
  }

  function AtRung(a: seq<Level>, r: Rung): seq<Level> {
    if a == [] then []
    else AtRung(a[..|a| - 1], r) + if RungOf(a[|a| - 1]) == r then [a[|a| - 1]] else []
  }

  lemma {:induction false} AtRungCount(a: seq<Level>, r: Rung, l: Level)
    ensures multiset(AtRung(a, r))[l] == if RungOf(l) == r then multiset(a)[l] else 0
  {
    if a != [] {
      AtRungCount(a[..|a| - 1], r, l);
      assert a == a[..|a| - 1] + [a[|a| - 1]];
    }
  }

  lemma {:induction false} RungCount(a: seq<Level>, r: Rung)
    ensures multiset(Rungs(a))[r] == |AtRung(a, r)|
  {
    if a != [] {
      RungCount(a[..|a| - 1], r);
      assert Rungs(a) == Rungs(a[..|a| - 1]) + [RungOf(a[|a| - 1])];
    }
  }

  lemma RungsOfPermutation(a: seq<Level>, b: seq<Level>)
    requires multiset(a) == multiset(b)
    ensures multiset(Rungs(a)) == multiset(Rungs(b))
  {
    forall r: Rung ensures multiset(Rungs(a))[r] == multiset(Rungs(b))[r] {
      forall l: Level ensures multiset(AtRung(a, r))[l] == multiset(AtRung(b, r))[l] {
        AtRungCount(a, r, l);
        AtRungCount(b, r, l);
      }
      assert multiset(AtRung(a, r)) == multiset(AtRung(b, r));
      assert |AtRung(a, r)| == |multiset(AtRung(a, r))| == |AtRung(b, r)|;
      RungCount(a, r);
      RungCount(b, r);
    }
  }

  ghost predicate SortedRungs(side: Side, a: seq<Rung>) {
    forall i, j :: 0 <= i < j < |a| ==> RungPrecedes(side, a[i], a[j])
  }

  lemma SameHead(side: Side, a: seq<Rung>, b: seq<Rung>)
    requires SortedRungs(side, a) && SortedRungs(side, b)
    requires a != [] && b != [] && a[0] in b && b[0] in a
    ensures a[0] == b[0]
  {
  }

  lemma SameTail<T(!new)>(a: seq<T>, b: seq<T>)
    requires multiset(a) == multiset(b) && a != [] && b != [] && a[0] == b[0]
    ensures multiset(a[1..]) == multiset(b[1..])
  {
    assert a == [a[0]] + a[1..];
    assert b == [b[0]] + b[1..];
    forall x: T ensures multiset(a[1..])[x] == multiset(b[1..])[x] {
      assert multiset([a[0]] + a[1..])[x] == multiset([b[0]] + b[1..])[x];
    }
  }

  lemma SortedTail(side: Side, a: seq<Rung>)
    requires SortedRungs(side, a) && a != []
    ensures SortedRungs(side, a[1..])
  {
  }

  lemma {:induction false} SortedRungsUnique(side: Side, a: seq<Rung>, b: seq<Rung>)
    requires SortedRungs(side, a) && SortedRungs(side, b)
    requires multiset(a) == multiset(b)
    ensures a == b
  {
    assert |a| == |multiset(a)| == |b|;
    if a != [] {
      assert a[0] in multiset(b) && b[0] in multiset(a);
      SameHead(side, a, b);
      SameTail(a, b);
      SortedTail(side, a);
      SortedTail(side, b);
      SortedRungsUnique(side, a[1..], b[1..]);
      assert a == [a[0]] + a[1..] && b == [b[0]] + b[1..];
    }
  }

  /** Two merges of the same levels agree, and so do merges of two permutations of the same levels. */
  lemma MergeUnique(side: Side, n: nat, all: seq<Level>, all': seq<Level>, out: seq<Level>, out': seq<Level>)
    requires multiset(all) == multiset(all')
    requires IsMerge(side, n, all, out) && IsMerge(side, n, all', out')
    ensures Equivalent(out, out')
  {
    forall l: Level ensures multiset(out)[l] == multiset(out')[l] {
      SameKept(side, n, all, all', l);
    }
    assert multiset(out) == multiset(out');
    RungsOfPermutation(out, out');
    SortedRungsUnique(side, Rungs(out), Rungs(out'));
  }

  lemma SameBetterKeys(side: Side, all: seq<Level>, all': seq<Level>, k: F64)
    requires multiset(all) == multiset(all')
    ensures BetterKeys(side, all, k) == BetterKeys(side, all', k)
  {
    forall l ensures l in all <==> l in all' {
      assert l in all <==> l in multiset(all);
      assert l in all' <==> l in multiset(all');
    }
  }

  lemma SameKept(side: Side, n: nat, all: seq<Level>, all': seq<Level>, l: Level)
    requires multiset(all) == multiset(all')
    ensures Kept(side, n, all, l) <==> Kept(side, n, all', l)
  {
    SameBetterKeys(side, all, all', Key(l.price));
  }

  /** The order in which the sources arrive does not matter to a side. */
  lemma SourceOrderIrrelevant(side: Side, n: nat, a: seq<Level>, b: seq<Level>, out: seq<Level>)
    ensures IsMerge(side, n, a + b, out) <==> IsMerge(side, n, b + a, out)
  {
    assert multiset(a + b) == multiset(b + a);
    forall l: Level ensures Kept(side, n, a + b, l) <==> Kept(side, n, b + a, l) {
      SameKept(side, n, a + b, b + a, l);
    }
  }

  /** Two conversions of the same slots agree: same spread, same time, equivalent sides. */
  lemma PublishedUnique(n: nat, slots: seq<Snapshot>, s: Summary, s': Summary)
    requires Published(n, slots, s) && Published(n, slots, s')
    ensures Equivalent(s.bids, s'.bids) && Equivalent(s.asks, s'.asks)
    ensures s.spread == s'.spread && s.arrivalTime == s'.arrivalTime
  {
    MergeUnique(Bid, n, AllLevels(Bid, slots), AllLevels(Bid, slots), s.bids, s'.bids);
    MergeUnique(Ask, n, AllLevels(Ask, slots), AllLevels(Ask, slots), s.asks, s'.asks);
    SpreadReadsRungs(s.bids, s.asks, s'.bids, s'.asks);
  }

  /** The spread depends on the heads only through their keyed prices. */
  lemma SpreadReadsRungs(bids: seq<Level>, asks: seq<Level>, bids': seq<Level>, asks': seq<Level>)
    requires Rungs(bids) == Rungs(bids') && Rungs(asks) == Rungs(asks')
    ensures Spread(bids, asks) == Spread(bids', asks')
  {
  }
}
