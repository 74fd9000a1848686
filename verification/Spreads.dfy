/** The spread is the least ask of all sources minus the greatest bid of all sources. */
module Spreads {
  import opened Floats
  import opened Books
  import opened MergeSpec
  import opened Combined
  import opened Conservation
  import opened Reference

  /** `p` is the best keyed price of a side. */
  ghost predicate IsBest(side: Side, all: seq<Level>, p: real) {
    && (exists l :: l in all && Key(l.price) == Fin(p))
    && forall l :: l in all ==> !Better(side, Key(l.price), Fin(p))
  }

  /** The head of a merge is the best level there is. */
  lemma HeadIsBest(side: Side, n: nat, all: seq<Level>, out: seq<Level>)
    requires n >= 1 && all != [] && IsMerge(side, n, all, out)
    ensures out != [] && out[0] in all
    ensures forall l :: l in all ==> !Better(side, Key(l.price), Key(out[0].price))
  {
    assert Key(all[0].price) in DistinctKeys(all);
    MergeDistinct(side, n, all, out);
    DistinctIsInjective(out);
    var k := Key(out[0].price);
    assert out[0] in multiset(out);
    assert out[0] in multiset(all);
    forall l | l in out ensures !Better(side, Key(l.price), k) {
      var i :| 0 <= i < |out| && out[i] == l;
      assert i > 0 ==> MayPrecede(side, out[0], out[i]);
    }
    forall l | l in all ensures !Better(side, Key(l.price), k) {
      if Better(side, Key(l.price), k) {
        SubsetSize(BetterKeys(side, all, Key(l.price)), BetterKeys(side, all, k));
        KeptIsPublished(side, n, all, out, l);
      }
    }
  }

  lemma KeptIsPublished(side: Side, n: nat, all: seq<Level>, out: seq<Level>, l: Level)
    requires IsMerge(side, n, all, out) && l in all && Kept(side, n, all, l)
    ensures l in out
  {
    assert l in multiset(all);
    assert multiset(out)[l] == multiset(all)[l];
  }

  /** With a positive best bid and a positive best ask, over all sources, the spread is their difference. */
  lemma SpreadIsGlobal(n: nat, slots: seq<Snapshot>, s: Summary, bid: real, ask: real)
    requires n >= 1 && Published(n, slots, s)
    requires IsBest(Bid, AllLevels(Bid, slots), bid) && bid > 0.0
    requires IsBest(Ask, AllLevels(Ask, slots), ask) && ask > 0.0
    ensures s.spread == Fin(ask - bid)
  {
    BestIsHead(Bid, n, AllLevels(Bid, slots), s.bids, bid);
    BestIsHead(Ask, n, AllLevels(Ask, slots), s.asks, ask);
  }

  lemma BestIsHead(side: Side, n: nat, all: seq<Level>, out: seq<Level>, p: real)
    requires n >= 1 && IsMerge(side, n, all, out) && IsBest(side, all, p)
    ensures out != [] && Key(out[0].price) == Fin(p)
  {
    var l :| l in all && Key(l.price) == Fin(p);
    HeadIsBest(side, n, all, out);
    assert !Better(side, Key(l.price), Key(out[0].price));
  }

  ghost predicate FinitePositive(levels: seq<Level>) {
    forall l :: l in levels ==> l.price.Fin? && l.price.v > 0.0
  }

  /** A non-empty side of finite prices has a best one. */
  lemma {:induction false} BestExists(side: Side, all: seq<Level>)
    requires all != [] && FinitePositive(all)
    ensures exists p :: p > 0.0 && IsBest(side, all, p)
  {
    var front, last := all[..|all| - 1], all[|all| - 1];
    assert all == front + [last];
    var p := last.price.v;
    if front == [] {
      assert IsBest(side, all, p);
    } else {
      BestExists(side, front);
      var q :| q > 0.0 && IsBest(side, front, q);
      var r := if Better(side, Fin(p), Fin(q)) then p else q;
      assert last in all;
      if r == q {
        var l :| l in front && Key(l.price) == Fin(q);
        assert l in all;
      }
      assert IsBest(side, all, r);
    }
  }

  /** A superset of levels has a best price at least as good. */
  lemma BestImproves(side: Side, all: seq<Level>, all': seq<Level>, p: real, p': real)
    requires IsBest(side, all, p) && IsBest(side, all', p')
    requires forall l :: l in all ==> exists l' :: l' in all' && l'.price == l.price
    ensures !Better(side, Fin(p), Fin(p'))
  {
  }

  lemma {:induction false} SlotLevelsInAll(side: Side, slots: seq<Snapshot>, l: Level)
    requires |slots| == NUM_SOURCES
    ensures l in AllLevels(side, slots) <==>
      || l in Tag(slots[0].source, slots[0].Levels(side))
      || l in Tag(slots[1].source, slots[1].Levels(side))
  {
    TwoSlots(side, slots);
  }

  lemma UpdateKeepsPrices(side: Side, slots: seq<Snapshot>, snapshot: Snapshot, l: Level)
    requires |slots| == NUM_SOURCES && l in AllLevels(side, slots)
    requires forall x :: x in slots[Index(snapshot.source)].Levels(side) ==> x in snapshot.Levels(side)
    ensures exists l' :: l' in AllLevels(side, Updated(slots, snapshot)) && l'.price == l.price
  {
    var slots', i := Updated(slots, snapshot), Index(snapshot.source);
    SlotLevelsInAll(side, slots, l);
    var j := if l in Tag(slots[0].source, slots[0].Levels(side)) then 0 else 1;
    var p :| 0 <= p < |slots[j].Levels(side)| && Tag(slots[j].source, slots[j].Levels(side))[p] == l;
    var x := slots[j].Levels(side)[p];
    assert x in slots'[j].Levels(side);
    var q :| 0 <= q < |slots'[j].Levels(side)| && slots'[j].Levels(side)[q] == x;
    var l' := Tag(slots'[j].source, slots'[j].Levels(side))[q];
    assert l'.price == l.price;
    SlotLevelsInAll(side, slots', l');
  }

  /** Replacing a source's snapshot by one with a superset of its levels never widens the spread. */
  lemma SupersetNeverWidens(n: nat, slots: seq<Snapshot>, snapshot: Snapshot, s: Summary, s': Summary)
    requires n >= 1 && |slots| == NUM_SOURCES
    requires Published(n, slots, s) && Published(n, Updated(slots, snapshot), s')
    requires forall side: Side, x :: x in slots[Index(snapshot.source)].Levels(side) ==> x in snapshot.Levels(side)
    requires forall side: Side ::
      && AllLevels(side, slots) != []
      && FinitePositive(AllLevels(side, slots))
      && FinitePositive(AllLevels(side, Updated(slots, snapshot)))
    ensures s.spread.Fin? && s'.spread.Fin? && s'.spread.v <= s.spread.v
  {
    var bid, bid' := SideImproves(Bid, slots, snapshot);
    var ask, ask' := SideImproves(Ask, slots, snapshot);
    SpreadIsGlobal(n, slots, s, bid, ask);
    SpreadIsGlobal(n, Updated(slots, snapshot), s', bid', ask');
  }

  lemma SideImproves(side: Side, slots: seq<Snapshot>, snapshot: Snapshot) returns (p: real, p': real)
    requires |slots| == NUM_SOURCES
    requires forall x :: x in slots[Index(snapshot.source)].Levels(side) ==> x in snapshot.Levels(side)
    requires AllLevels(side, slots) != []
    requires FinitePositive(AllLevels(side, slots)) && FinitePositive(AllLevels(side, Updated(slots, snapshot)))
    ensures p > 0.0 && IsBest(side, AllLevels(side, slots), p)
    ensures p' > 0.0 && IsBest(side, AllLevels(side, Updated(slots, snapshot)), p')
    ensures !Better(side, Fin(p), Fin(p'))
  {
    var all, all' := AllLevels(side, slots), AllLevels(side, Updated(slots, snapshot));
    forall l | l in all ensures exists l' :: l' in all' && l'.price == l.price {
      UpdateKeepsPrices(side, slots, snapshot, l);
    }
    assert all[0] in all;
    BestExists(side, all);
    BestExists(side, all');
    p :| p > 0.0 && IsBest(side, all, p);
    p' :| p' > 0.0 && IsBest(side, all', p');
    BestImproves(side, all, all', p, p');
  }
}
