/** When the conversion panics, for slots as the parsers fill them. */
module PanicFreedom {
  import opened Floats
  import opened Books
  import opened MergeSpec
  import opened Combined
  import opened Conservation

  /** No two levels of one source share a keyed price. */
  ghost predicate DistinctPrices(levels: seq<PriceLevel>) {
    forall i, j :: 0 <= i < j < |levels| ==> Key(levels[i].price) != Key(levels[j].price)
  }

  ghost predicate NoNaNAmounts(levels: seq<PriceLevel>) {
    forall l :: l in levels ==> !l.amount.NaN?
  }

  ghost predicate CleanSnapshot(s: Snapshot) {
    && DistinctPrices(s.bids) && NoNaNAmounts(s.bids)
    && DistinctPrices(s.asks) && NoNaNAmounts(s.asks)
  }

  /** The source quotes keyed price `k`. */
  predicate Quotes(levels: seq<PriceLevel>, k: F64) {
    levels != [] && (Key(levels[|levels| - 1].price) == k || Quotes(levels[..|levels| - 1], k))
  }

  lemma {:induction false} QuotesMeans(levels: seq<PriceLevel>, k: F64)
    ensures Quotes(levels, k) <==> exists i :: 0 <= i < |levels| && Key(levels[i].price) == k
  {
    if levels != [] {
      var front := levels[..|levels| - 1];
      QuotesMeans(front, k);
      if i :| 0 <= i < |front| && Key(front[i].price) == k {
        assert Key(levels[i].price) == k;
      }
    }
  }

  lemma {:induction false} DistinctAtKey(source: SourceId, levels: seq<PriceLevel>, k: F64)
    requires DistinctPrices(levels)
    ensures |AtKey(Tag(source, levels), k)| == if Quotes(levels, k) then 1 else 0
  {
    if levels != [] {
      var front := levels[..|levels| - 1];
      assert Tag(source, levels)[..|levels| - 1] == Tag(source, front);
      DistinctAtKey(source, front, k);
      QuotesMeans(front, k);
    }
  }

  /** Both sources quote one keyed price on one side. */
  predicate SamePrice(side: Side, slots: seq<Snapshot>, k: F64)
    requires |slots| == NUM_SOURCES
  {
    Quotes(slots[0].Levels(side), k) && Quotes(slots[1].Levels(side), k)
  }

  lemma AtMostTwo(side: Side, slots: seq<Snapshot>, k: F64)
    requires |slots| == NUM_SOURCES
    requires forall i :: 0 <= i < |slots| ==> DistinctPrices(slots[i].Levels(side))
    ensures |AtKey(AllLevels(side, slots), k)| <= 2
    ensures |AtKey(AllLevels(side, slots), k)| == 2 <==> SamePrice(side, slots, k)
  {
    TwoSlots(side, slots);
    AtKeyAppend(Tag(slots[0].source, slots[0].Levels(side)), Tag(slots[1].source, slots[1].Levels(side)), k);
    DistinctAtKey(slots[0].source, slots[0].Levels(side), k);
    DistinctAtKey(slots[1].source, slots[1].Levels(side), k);
  }

  lemma NoNaNInAll(side: Side, slots: seq<Snapshot>, l: Level)
    requires |slots| == NUM_SOURCES && l in AllLevels(side, slots)
    requires forall i :: 0 <= i < |slots| ==> NoNaNAmounts(slots[i].Levels(side))
    ensures !l.amount.NaN?
  {
    TwoSlots(side, slots);
    var j := if l in Tag(slots[0].source, slots[0].Levels(side)) then 0 else 1;
    var p :| 0 <= p < |slots[j].Levels(side)| && Tag(slots[j].source, slots[j].Levels(side))[p] == l;
    assert slots[j].Levels(side)[p] in slots[j].Levels(side);
  }

  lemma SidePanicsExactly(side: Side, n: nat, slots: seq<Snapshot>)
    requires SlotsValid(n, slots)
    requires forall i :: 0 <= i < |slots| ==>
      DistinctPrices(slots[i].Levels(side)) && NoNaNAmounts(slots[i].Levels(side))
    ensures SidePanics(side, n, AllLevels(side, slots)) <==> n == 1 && exists k: F64 :: SamePrice(side, slots, k)
  {
    var all := AllLevels(side, slots);
    if ComparesNaN(side, n, all) {
      var l :| l in all && l.amount.NaN?;
      NoNaNInAll(side, slots, l);
    }
    if Overflows(n, all) {
      var k: F64 :| |AtKey(all, k)| > n;
      AtMostTwo(side, slots, k);
      if n == 0 {
        assert slots[0].WithinDepth(0) && slots[1].WithinDepth(0);
        TwoSlots(side, slots);
      }
    }
    if n == 1 {
      if k: F64 :| SamePrice(side, slots, k) {
        AtMostTwo(side, slots, k);
        assert |AtKey(all, k)| > n;
      }
    }
  }

  /** With distinct prices in each source and comparable amounts, the conversion panics exactly when the
      depth is 1 and both sources quote the same price on a side. */
  lemma PanicsExactly(n: nat, slots: seq<Snapshot>)
    requires SlotsValid(n, slots) && forall i :: 0 <= i < |slots| ==> CleanSnapshot(slots[i])
    ensures Panics(n, slots) <==> n == 1 && exists side: Side, k: F64 :: SamePrice(side, slots, k)
  {
    assert forall i :: 0 <= i < |slots| ==> CleanSnapshot(slots[i]);
    SidePanicsExactly(Bid, n, slots);
    SidePanicsExactly(Ask, n, slots);
    if side: Side, k: F64 :| SamePrice(side, slots, k) {
      assert side.Bid? ==> SamePrice(Bid, slots, k);
      assert side.Ask? ==> SamePrice(Ask, slots, k);
    }
  }
}
