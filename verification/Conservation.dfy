/** What reaches the summary: which levels, how many, and from which source. */
module Conservation {
  import opened Floats
  import opened Books
  import opened MergeSpec
  import opened Combined
  import opened Uniqueness
  import opened Reference

  lemma TwoSlots(side: Side, slots: seq<Snapshot>)
    requires |slots| == NUM_SOURCES
    ensures AllLevels(side, slots) ==
      Tag(slots[0].source, slots[0].Levels(side)) + Tag(slots[1].source, slots[1].Levels(side))
  {
    assert slots[..1][..0] == [];
    assert AllLevels(side, slots[..1]) == Tag(slots[0].source, slots[0].Levels(side));
  }

  lemma {:induction false} TagCount(source: SourceId, levels: seq<PriceLevel>, l: Level)
    ensures multiset(Tag(source, levels))[l] ==
      if l.exchange == source then multiset(levels)[PriceLevel(l.price, l.amount)] else 0
  {
    if levels != [] {
      var front, last := levels[..|levels| - 1], levels[|levels| - 1];
      TagCount(source, front, l);
      assert levels == front + [last];
      assert Tag(source, levels) == Tag(source, front) + [Level(source, last.price, last.amount)];
    }
  }

  /** Every published level is a level of the source it names, price and amount unchanged, as often as
      that source has it; and every level of a source at one of the `n` best prices is published. */
  lemma PublishedLevelsAreSourceLevels(n: nat, slots: seq<Snapshot>, side: Side, out: seq<Level>)
    requires SlotsValid(n, slots) && IsMerge(side, n, AllLevels(side, slots), out)
    ensures forall l: Level {:trigger multiset(out)[l]} ::
              multiset(out)[l] ==
              if Kept(side, n, AllLevels(side, slots), l)
              then multiset(slots[Index(l.exchange)].Levels(side))[PriceLevel(l.price, l.amount)]
              else 0
  {
    TwoSlots(side, slots);
    forall l: Level
      ensures multiset(AllLevels(side, slots))[l] ==
        multiset(slots[Index(l.exchange)].Levels(side))[PriceLevel(l.price, l.amount)]
    {
      TagCount(slots[0].source, slots[0].Levels(side), l);
      TagCount(slots[1].source, slots[1].Levels(side), l);
    }
  }

  /** One of the `n` best prices is quoted by two levels. */
  ghost predicate SharesKept(side: Side, n: nat, all: seq<Level>) {
    exists l :: l in all && Kept(side, n, all, l) && |AtKey(all, Key(l.price))| >= 2
  }

  lemma DistinctPermuted(a: seq<Level>, b: seq<Level>)
    requires multiset(a) == multiset(b)
    ensures DistinctKeys(a) == DistinctKeys(b)
  {
    forall l ensures l in a <==> l in b {
      assert l in a <==> l in multiset(a);
      assert l in b <==> l in multiset(b);
    }
  }

  lemma CutDistinct(n: nat, s: seq<Level>)
    ensures |DistinctKeys(Cut(n, s))| == if |DistinctKeys(s)| <= n then |DistinctKeys(s)| else n
  {
    CutIsPrefix(n, s);
    var q := |Cut(n, s)|;
    if |DistinctKeys(s)| > n {
      assert Cut(n, s) == s[..q] && s[..|s|] == s;
      assert s[..q + 1] == Cut(n, s) + [s[q]];
      SubsetSize(DistinctKeys(s[..q + 1]), DistinctKeys(Cut(n, s)) + {Key(s[q].price)});
    }
  }

  /** A merge has as many distinct prices as it may have. */
  lemma MergeDistinct(side: Side, n: nat, all: seq<Level>, out: seq<Level>)
    requires IsMerge(side, n, all, out)
    ensures |DistinctKeys(out)| == if |DistinctKeys(all)| <= n then |DistinctKeys(all)| else n
    ensures |DistinctKeys(all)| <= n ==> multiset(out) == multiset(all)
  {
    var s := SortLevels(side, all);
    SortOrdered(side, {}, all);
    SortPermutes(side, all);
    forall i, j | 0 <= i < j < |s| ensures !Better(side, Key(s[j].price), Key(s[i].price)) {
      assert PairOrdered(side, {}, s[i], s[j]);
    }
    forall l: Level ensures multiset(out)[l] == multiset(Cut(n, s))[l] {
      SameKept(side, n, all, s, l);
      CutCounts(side, n, s, l);
    }
    DistinctPermuted(out, Cut(n, s));
    DistinctPermuted(all, s);
    CutDistinct(n, s);
    if |DistinctKeys(all)| <= n {
      CutIsPrefix(n, s);
      assert multiset(out) == multiset(Cut(n, s));
    }
  }

  /** No two levels share a keyed price. */
  ghost predicate Injective(s: seq<Level>) {
    forall i, j :: 0 <= i < j < |s| ==> Key(s[i].price) != Key(s[j].price)
  }

  lemma InjectiveFront(s: seq<Level>)
    requires s != []
    ensures Injective(s) <==> Injective(s[..|s| - 1]) && Key(s[|s| - 1].price) !in DistinctKeys(s[..|s| - 1])
  {
  }

  /** As many distinct prices as levels, exactly when no two levels share a price. */
  lemma {:induction false} DistinctIsInjective(s: seq<Level>)
    ensures |DistinctKeys(s)| <= |s|
    ensures |DistinctKeys(s)| == |s| <==> Injective(s)
  {
    if s == [] {
      assert DistinctKeys(s) == {};
    } else {
      var front, last := s[..|s| - 1], s[|s| - 1];
      DistinctIsInjective(front);
      InjectiveFront(s);
      assert s == front + [last];
      assert DistinctKeys(s) == DistinctKeys(front) + {Key(last.price)};
      if Key(last.price) in DistinctKeys(front) {
        assert DistinctKeys(s) == DistinctKeys(front);
      }
    }
  }

  lemma SharedInOut(side: Side, n: nat, all: seq<Level>, out: seq<Level>, k: F64)
    requires IsMerge(side, n, all, out)
    requires exists l :: l in out && Key(l.price) == k
    ensures |AtKey(out, k)| == |AtKey(all, k)|
  {
    var l0 :| l0 in out && Key(l0.price) == k;
    assert l0 in multiset(out);
    forall x: Level ensures multiset(AtKey(out, k))[x] == multiset(AtKey(all, k))[x] {
      AtKeyCount(out, k, x);
      AtKeyCount(all, k, x);
      assert multiset(out)[l0] > 0 ==> Kept(side, n, all, l0);
    }
    assert multiset(AtKey(out, k)) == multiset(AtKey(all, k));
    assert |AtKey(out, k)| == |multiset(AtKey(out, k))|;
  }

  lemma {:induction false} AtKeyPair(s: seq<Level>, k: F64)
    requires |AtKey(s, k)| >= 2
    ensures exists i, j :: 0 <= i < j < |s| && Key(s[i].price) == Key(s[j].price)
  {
    var front := s[..|s| - 1];
    if |AtKey(front, k)| >= 2 {
      AtKeyPair(front, k);
      var i, j :| 0 <= i < j < |front| && Key(front[i].price) == Key(front[j].price);
      assert s[i] == front[i] && s[j] == front[j];
    } else {
      var l := AtKey(front, k)[0];
      InAtKey(front, k, l);
      var i :| 0 <= i < |front| && front[i] == l;
      assert s[i] == l && Key(s[i].price) == Key(s[|s| - 1].price);
    }
  }

  /** A side has at most `n` levels exactly when no kept price is shared, or when the levels are few
      anyway. The depth bounds the distinct prices, not the levels. */
  lemma DepthBoundsLevels(side: Side, n: nat, all: seq<Level>, out: seq<Level>)
    requires IsMerge(side, n, all, out)
    ensures |out| <= n <==> |all| <= n || (|DistinctKeys(all)| >= n && !SharesKept(side, n, all))
  {
    MergeDistinct(side, n, all, out);
    DistinctIsInjective(out);
    DistinctIsInjective(all);
    assert |multiset(out)| == |out| && |multiset(all)| == |all|;
    if |DistinctKeys(all)| >= n {
      SharedMeansPair(side, n, all, out);
      if |all| <= n {
        assert |DistinctKeys(all)| <= n;
      }
    } else {
      assert multiset(out) == multiset(all);
    }
  }

  lemma SharedMeansPair(side: Side, n: nat, all: seq<Level>, out: seq<Level>)
    requires IsMerge(side, n, all, out)
    ensures SharesKept(side, n, all) <==> !Injective(out)
  {
    if SharesKept(side, n, all) {
      var l :| l in all && Kept(side, n, all, l) && |AtKey(all, Key(l.price))| >= 2;
      assert multiset(out)[l] == multiset(all)[l];
      assert l in multiset(out);
      SharedInOut(side, n, all, out, Key(l.price));
      AtKeyPair(out, Key(l.price));
    }
    if i, j :| 0 <= i < j < |out| && Key(out[i].price) == Key(out[j].price) {
      TwoAtKey(out, i, j);
      assert out[i] in multiset(out);
      SharedInOut(side, n, all, out, Key(out[i].price));
      assert out[i] in multiset(all);
    }
  }
}
