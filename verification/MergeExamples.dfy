/** Inputs that show what a depth does not bound. */
module MergeExamples {
  import opened Floats
  import opened Books
  import opened MergeSpec
  import opened Combined
  import opened Reference
  import opened Conservation
  import opened PanicFreedom

  /** Two bids at the prices 2 and 1. */
  function TwoBids(source: SourceId): Snapshot {
    Snapshot([PriceLevel(Fin(2.0), Fin(1.0)), PriceLevel(Fin(1.0), Fin(1.0))], [], source, 0)
  }

  lemma FourBids(slots: seq<Snapshot>, out: seq<Level>)
    requires slots == [TwoBids(Bitstamp), TwoBids(Binance)] && IsMerge(Bid, 2, AllLevels(Bid, slots), out)
    ensures |out| == 4
  {
    var all := AllLevels(Bid, slots);
    TwoSlots(Bid, slots);
    var keys: set<F64> := {Fin(2.0), Fin(1.0)};
    forall k | k in DistinctKeys(all) ensures k in keys {}
    SubsetSize(DistinctKeys(all), keys);
    MergeDistinct(Bid, 2, all, out);
    assert |multiset(out)| == |out| && |multiset(all)| == |all| == 4;
  }

  /** Two exchanges that quote the same two prices: every conversion at depth 2 has four bids. */
  lemma DepthCanBeExceeded() returns (slots: seq<Snapshot>)
    ensures SlotsValid(2, slots) && forall i :: 0 <= i < |slots| ==> CleanSnapshot(slots[i])
    ensures exists summary :: Published(2, slots, summary)
    ensures forall summary :: Published(2, slots, summary) ==> |summary.bids| == 4
  {
    slots := [TwoBids(Bitstamp), TwoBids(Binance)];
    PanicsExactly(2, slots);
    ConversionExists(2, slots);
    forall summary | Published(2, slots, summary) ensures |summary.bids| == 4 {
      FourBids(slots, summary.bids);
    }
  }

  /** One bid at the price 1. */
  function OneBid(source: SourceId): Snapshot {
    Snapshot([PriceLevel(Fin(1.0), Fin(1.0))], [], source, 0)
  }

  /** Two exchanges that quote the same price: at depth 1 the conversion panics. */
  lemma DepthOneCanPanic() returns (slots: seq<Snapshot>)
    ensures SlotsValid(1, slots) && forall i :: 0 <= i < |slots| ==> CleanSnapshot(slots[i])
    ensures Panics(1, slots)
  {
    slots := [OneBid(Bitstamp), OneBid(Binance)];
    assert SamePrice(Bid, slots, Fin(1.0));
    PanicsExactly(1, slots);
  }
}
